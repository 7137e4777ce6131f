# OpenBLAS Conan recipe — a Dafny model of its build decisions

The recipe `conanfile.py` packages OpenBLAS for the Conan package manager.
Around downloads, child processes and file I/O it makes a few deterministic
decisions, and this project models and proves them:

- **Option translation** (`Recipe`): settings (`os`, `arch`, `compiler`,
  `build_type`) and options (`shared`, `USE_MASS`, `USE_OPENMP`,
  `NO_LAPACKE`) become the exact argument string given to `make`. The string
  is made of the `DEBUG/BINARY/USE_MASS/USE_OPENMP` header, then
  ` NO_SHARED=1` for a static build, then ` NO_LAPACKE=1` when LAPACKE is
  excluded. On Visual Studio they become the recipe's own entries of the
  CMake definitions map instead.
  `Recipe.Build` follows the source step by step: format, then `+=`, or the
  map filled key by key. It is proved equal to `PlanFor`. `PlanFor` renders
  an ordered list of `NAME=value` flags, and the lemmas state its
  properties.
- **Validation** (`Recipe.Configure`, `Recipe.ConfiguredPlan`): a static
  Visual Studio build is refused with the source's message, and nothing
  else is refused.
- **Descriptor patches** (`Package`): the pkg-config patch and the CMake
  patch work on the file contents. Both are built on `Text.ReplaceAll`,
  which has Python's `str.replace` semantics (leftmost, non-overlapping,
  left to right, and an empty pattern matching at every position). Python's
  `str.count`, `str.split` and `str.join` are modelled beside it. Each
  patch also has an imperative wrapper over a `TextFile` object:
  `FixPkgConfig` rebinds the data, writes it back and then replaces in the
  file, as the source does.
- **Advertised libraries** (`Package.PackageLibs`,
  `Package.CppInfo.PackageInfo`): the collected libraries, with `pthread`
  appended on Linux.

Settings are compared as strings, as Conan compares them. Option values
are booleans.

The pkg-config patch runs its replacement over the whole file after the
`prefix=` line is prepended (`conanfile.py:89-97`), so that line itself
becomes `prefix=${prefix}` (`Package.PkgConfigOnLinux`).

## Model

| member | source | states |
|---|---|---|
| Recipe.MakeArch | conanfile.py:25-26 | yields "32" exactly when arch is "x86", and "64" for every other arch |
| Recipe.MakeBuildTypeDebug | conanfile.py:28-29 | yields "0" exactly when build_type is "Release", and "1" otherwise |
| Recipe.MakeOptionValue | conanfile.py:31-32 | yields "1" exactly for a true option, and "0" for a false one |
| Recipe.Configure | conanfile.py:34-38 | fails exactly for compiler "Visual Studio" with shared false, carrying the source's message; every other combination passes |
| Recipe.PlanFor | conanfile.py:47-70 | the build the recipe plans: make arguments off Visual Studio, the CMake definitions on it (its properties are stated by Recipe.Build, MakeArgumentsShape, MakeArgumentsOptionalTokens and CMakeDefinitions) |
| Recipe.MakeArguments | conanfile.py:49-57 | the rendered flag list given to make (stated by MakeArgumentsShape, MakeArgumentsHeader and MakeArgumentsOptionalTokens) |
| Recipe.MakeHeader | conanfile.py:49-54 | the format string with its four translated values (stated by ReleaseHeader and HeaderAvoidsMarkers) |
| Recipe.OptionalTokens | conanfile.py:56-57 | " NO_SHARED=1" for a static build, then " NO_LAPACKE=1" when LAPACKE is excluded (stated by NoSharedOccurrences and NoLapackeOccurrences) |
| Recipe.ConfiguredPlan | conanfile.py:34-38 | configure running before build: a refused configuration plans no build (stated by ConfiguredPlanFailsOnlyForStaticVisualStudio) |
| Recipe.ConfiguredPlanFailsOnlyForStaticVisualStudio | conanfile.py:34-38 | when configure runs before build, no build is planned exactly for static Visual Studio; otherwise the plan is the build step's |
| Recipe.Build | conanfile.py:47-70 | the build step, with the string formatted then extended and the CMake map filled key by key, equals the flag-list reference PlanFor |
| Recipe.MakeArgumentsShape | conanfile.py:49-57 | the rendered flag list is the four-argument header, then " NO_SHARED=1" if static, then " NO_LAPACKE=1" if LAPACKE is excluded |
| Recipe.MakeArgumentsHeader | conanfile.py:49-54 | off Visual Studio the make arguments begin with DEBUG=<d> BINARY=<b> USE_MASS=<m> USE_OPENMP=<o>, each value translated from its setting or option |
| Recipe.NoSharedOccurrences | conanfile.py:56 | after a header without the letter H, " NO_SHARED=1" occurs exactly once (right after the header) when static, and never otherwise |
| Recipe.NoLapackeOccurrences | conanfile.py:57 | after a header without the letter K, " NO_LAPACKE=1" occurs exactly once when NO_LAPACKE is set, and never otherwise; when both tokens apply it comes after NO_SHARED |
| Recipe.MakeArgumentsOptionalTokens | conanfile.py:56-57 | in the make arguments the occurrence sets of both optional tokens are exactly those above, so each token appears once or never, with NO_SHARED before NO_LAPACKE |
| Recipe.CMakeDefinitions | conanfile.py:68-70 | on Visual Studio the recipe's own entries of the definitions map are exactly USE_MASS, USE_OPENMP and NO_LAPACKE, each holding its option unchanged |
| Recipe.CMakePlanIgnoresTranslatedSettings | conanfile.py:68-70 | on Visual Studio the recipe's own definitions depend on neither arch, nor build type, nor the shared option |
| Recipe.ReleaseHeader | conanfile.py:49-54 | the header for a 64-bit Release build with MASS and OpenMP off is "DEBUG=0 BINARY=64 USE_MASS=0 USE_OPENMP=0" |
| Recipe.ExampleReleaseDefaults | conanfile.py:49-57 | Linux, x86_64, gcc, Release with the default options gives exactly "DEBUG=0 BINARY=64 USE_MASS=0 USE_OPENMP=0" |
| Recipe.ExampleReleaseStatic | conanfile.py:49-57 | the same with shared false gives exactly "DEBUG=0 BINARY=64 USE_MASS=0 USE_OPENMP=0 NO_SHARED=1" |
| Recipe.ExampleStaticVisualStudio | conanfile.py:34-38 | a static Visual Studio configuration ends in the configuration error, before any build |
| Text.ReplaceAll | conanfile.py:93-97 | Python's str.replace behind replace_in_file: leftmost, non-overlapping, left to right (stated by ReplaceAllAtFirst, ReplaceAllIsJoinOfSplit, ReplaceAllLength and the lemmas below) |
| Text.Count | conanfile.py:93-97 | the number of occurrences replaced; for a non-empty search text they fit in the text without overlapping, Count times its length being at most the text's length |
| Text.Split | conanfile.py:101-105 | Python's str.split: never empty (stated with Join by ReplaceAllIsJoinOfSplit, SplitPiecesAvoidPattern and JoinSplitRoundTrip) |
| Text.Join | conanfile.py:101-105 | Python's str.join, the inverse of Split (stated by JoinSplitRoundTrip) |
| Text.FirstIndex | conanfile.py:93-97 | a found position is one where the search text occurs |
| Text.FirstIndexIsLeftmost | conanfile.py:93-97 | the found position is the leftmost occurrence, nothing occurs earlier, and nothing is found exactly when the text contains no occurrence |
| Text.ReplaceAllAtFirst | conanfile.py:93-97 | the text before the leftmost occurrence is copied, that occurrence is replaced and counted once, and replacement goes on after it |
| Text.ReplaceAllSkip | conanfile.py:93-97 | a prefix in which the search text does not start is copied unchanged, and no replacement is counted there |
| Text.ReplaceAllAtMatch | conanfile.py:93-97 | an occurrence at the front is replaced and counted once |
| Text.ReplaceAllNoMatch | conanfile.py:101-105 | text without an occurrence of a non-empty search text is unchanged and counts zero replacements |
| Text.CountZeroIff | conanfile.py:101-105 | for a non-empty search text, zero replacements happen exactly when it does not occur |
| Text.ReplaceAllLength | conanfile.py:101-105 | the length changes by the difference in length of replacement and search text, once per replaced occurrence |
| Text.ReplaceAllIsJoinOfSplit | conanfile.py:101-105 | replacement equals joining the split pieces with the replacement text, and the number of replacements is the number of joints |
| Text.SplitPiecesAvoidPattern | conanfile.py:101-105 | no piece between replaced occurrences contains the search text |
| Text.JoinSplitRoundTrip | conanfile.py:101-105 | splitting on the search text and joining with it gives the original text back |
| Text.ReplaceAllKeepsCharCount | conanfile.py:93-97 | a character in neither the search nor the replacement text occurs equally often before and after |
| Text.SplitAtFirst | conanfile.py:101-105 | splitting yields the text before the leftmost occurrence, then the split of the text after it |
| Text.OccurrencesByMarker | conanfile.py:56-57 | a token whose marker character appears nowhere else occurs in a + token + b exactly once, right after a |
| Text.NoOccurrenceByMarker | conanfile.py:56-57 | a token with a character the text lacks does not occur in it |
| Package.PkgConfigPatch | conanfile.py:84-97 | the pkg-config patch on the file contents (stated by PkgConfigOffLinux, PkgConfigOnLinux and PkgConfigAddsOneLine) |
| Package.CMakeConfigPatch | conanfile.py:99-105 | the CMake patch on the file contents (stated by CMakeConfigSegments, CMakeConfigUnchangedWithoutFolder and CMakeConfigLength) |
| Package.TextFile.constructor | conanfile.py:84-105 | an installed descriptor file holding the given contents, the state the two patches update |
| Package.PkgConfigOffLinux | conanfile.py:86 | off Linux the pkg-config descriptor is left unchanged |
| Package.PkgConfigOnLinux | conanfile.py:86-97 | on Linux, for an absolute folder, the result is "prefix=${prefix}\n" followed by the old text with every folder occurrence replaced by ${prefix} |
| Package.PkgConfigAddsOneLine | conanfile.py:88-97 | when the folder holds no line break, the patched descriptor has exactly one line break more than the original |
| Package.CMakeConfigSegments | conanfile.py:99-105 | the CMake patch keeps the text between folder occurrences byte for byte and puts ${CONAN_OPENBLAS_ROOT} at each occurrence; those pieces hold no occurrence and rejoin to the original |
| Package.CMakeConfigUnchangedWithoutFolder | conanfile.py:99-105 | a CMake descriptor without the folder is unchanged |
| Package.CMakeConfigLength | conanfile.py:99-105 | the patched CMake descriptor's length grows by the difference in length per replaced occurrence |
| Package.PackageLibs | conanfile.py:78-82 | the collected list comes first unchanged, and exactly "pthread" is appended on Linux and nothing elsewhere; "pthread" is listed exactly when on Linux or when it was collected |
| Package.CppInfo.PackageInfo | conanfile.py:78-82 | assigning the collected libraries and appending on Linux leaves libs equal to PackageLibs |
| Package.ReplaceInFile | conanfile.py:93-97 | the file's new contents are its old contents with every occurrence replaced |
| Package.FixPkgConfig | conanfile.py:84-97 | prepending, writing back and then replacing in the file leaves the pkg-config patch of the old contents |
| Package.FixCMakeConfig | conanfile.py:99-105 | the file's new contents are the CMake patch of its old contents, on every OS |
| Package.PackageFiles | conanfile.py:74-76 | the package step patches the two distinct descriptor files, each with its own patch |

## Left out

- Downloading and unpacking the sources in `source()`, including the `glob(...)[0]` directory rename. This is network and filesystem I/O.
- Running `make`, `make install` and the CMake configure/build in child processes. The model stops at the argument string those calls receive and at the recipe's own CMake definitions.
- Reading and writing the descriptor files, and where they live. A file is a `TextFile` object holding its contents.
- `tools.replace_in_file`'s behaviour when the search text is absent (an error or a warning, depending on the Conan version). Its source is not part of this model, so it is modelled only as a replacement of all occurrences.
- `tools.collect_libs` scans the package folder. Its result is a parameter of `PackageLibs`.
- The logging through `self.output`, and the class metadata (name, version, url, license, exports, the declared option domains).
- Package.CMakeConfigSegments: it does not claim that the patched text holds no occurrence of the folder. In general the replacement text next to the surrounding bytes can form the folder again. What is proved instead is that every kept piece is free of the folder and unchanged.
- Recipe.CMakeDefinitions: entries pre-filled by Conan's `CMake(self)` helper (conanfile.py:67) are not modelled; the map holds only the recipe's own three writes. The helper's source is not part of this model. Conan's own conversion of the boolean values into CMake `-D` arguments is not modelled either; the map holds the option values as booleans.
- Recipe.CMakePlanIgnoresTranslatedSettings: it speaks only of the recipe's own three entries, not of what Conan's `CMake(self)` helper adds from the settings and the shared option.
