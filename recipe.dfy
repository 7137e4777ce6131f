/**
  The build-time decisions of the OpenBLAS package recipe: validating the
  settings and options, and translating them either into the argument
  string handed to `make` or into the definitions handed to CMake.
 */
module Recipe {
  import opened Text

  /** The environment-derived settings; Conan compares each as a string. */
  datatype Settings = Settings(os: string, arch: string, compiler: string, buildType: string)

  /** The recipe's four boolean options. */
  datatype Options = Options(shared: bool, useMass: bool, useOpenmp: bool, noLapacke: bool)

  /** `shared=True`, `USE_MASS=False`, `USE_OPENMP=False`, `NO_LAPACKE=False`. */
  const DefaultOptions := Options(true, false, false, false)

  const VisualStudio := "Visual Studio"

  const StaticUnsupported :=
    "Static build not supported in Visual Studio: "
    + "https://github.com/xianyi/OpenBLAS/blob/v0.2.20/CMakeLists.txt#L177"

  const NoSharedToken := " NO_SHARED=1"
  const NoLapackeToken := " NO_LAPACKE=1"

  /** Outcome of the `configure` check: the exception it raises is `Fail`. */
  datatype Outcome = Pass | Fail(message: string)

  datatype Result<T> = Ok(value: T) | Err(message: string)

  /** `make` on every compiler but Visual Studio; CMake with a definitions map there. */
  datatype BuildPlan = MakeBuild(arguments: string) | CMakeBuild(definitions: map<string, bool>)

  /** One `NAME=value` argument of the `make` command line. */
  datatype MakeFlag = MakeFlag(name: string, value: string)

  /** The word width passed as `BINARY`. */
  function MakeArch(s: Settings): (r: string)
    ensures r == "32" <==> s.arch == "x86"
    ensures r == "64" <==> s.arch != "x86"
  {
    if s.arch == "x86" then "32" else "64"
  }

  /** The value passed as `DEBUG`. */
  function MakeBuildTypeDebug(s: Settings): (r: string)
    ensures r == "0" <==> s.buildType == "Release"
    ensures r == "1" <==> s.buildType != "Release"
  {
    if s.buildType == "Release" then "0" else "1"
  }

  /** How a boolean option is spelled on the `make` command line. */
  function MakeOptionValue(option: bool): (r: string)
    ensures r == "1" <==> option
    ensures r == "0" <==> !option
  {
    if option then "1" else "0"
  }

  /** Conan's `configure` step: only a static Visual Studio build is refused. */
  function Configure(s: Settings, o: Options): (r: Outcome)
    ensures r.Fail? <==> s.compiler == VisualStudio && !o.shared
    ensures r.Fail? ==> r.message == StaticUnsupported
  {
    if s.compiler == VisualStudio && !o.shared then Fail(StaticUnsupported) else Pass
  }

  /** The `make` arguments as an ordered list of flags. */
  function MakeFlags(s: Settings, o: Options): seq<MakeFlag> {
    HeaderFlags(s, o) + OptionalFlags(o)
  }

  /** `NO_SHARED=1` for a static build, then `NO_LAPACKE=1` when LAPACKE is excluded. */
  function OptionalFlags(o: Options): seq<MakeFlag> {
    (if !o.shared then [MakeFlag("NO_SHARED", "1")] else [])
    + (if o.noLapacke then [MakeFlag("NO_LAPACKE", "1")] else [])
  }

  function HeaderFlags(s: Settings, o: Options): seq<MakeFlag> {
    [ MakeFlag("DEBUG", MakeBuildTypeDebug(s)),
      MakeFlag("BINARY", MakeArch(s)),
      MakeFlag("USE_MASS", MakeOptionValue(o.useMass)),
      MakeFlag("USE_OPENMP", MakeOptionValue(o.useOpenmp)) ]
  }

  function RenderFlag(f: MakeFlag): string {
    f.name + "=" + f.value
  }

  /** The flags rendered as one space-separated command-line string. */
  function Render(flags: seq<MakeFlag>): string
    decreases |flags|
  {
    if |flags| == 0 then ""
    else if |flags| == 1 then RenderFlag(flags[0])
    else Render(flags[..|flags| - 1]) + " " + RenderFlag(flags[|flags| - 1])
  }

  /** Rendering one more flag appends a space and `NAME=value`. */
  lemma RenderSnoc(flags: seq<MakeFlag>, f: MakeFlag)
    requires |flags| > 0
    ensures Render(flags + [f]) == Render(flags) + " " + RenderFlag(f)
  {
    assert (flags + [f])[..|flags|] == flags;
  }

  lemma RenderStep(x: string, name: string, v: string, literal: string)
    requires literal == " " + name + "="
    ensures x + " " + RenderFlag(MakeFlag(name, v)) == x + literal + v
  {
  }

  /** The four leading flags render as the source's format string. */
  lemma RenderHeader(d: string, b: string, m: string, p: string)
    ensures Render([MakeFlag("DEBUG", d), MakeFlag("BINARY", b), MakeFlag("USE_MASS", m), MakeFlag("USE_OPENMP", p)])
         == "DEBUG=" + d + " BINARY=" + b + " USE_MASS=" + m + " USE_OPENMP=" + p
  {
    var f1, f2, f3, f4 := MakeFlag("DEBUG", d), MakeFlag("BINARY", b), MakeFlag("USE_MASS", m), MakeFlag("USE_OPENMP", p);
    assert Render([f1]) == "DEBUG=" + d;
    RenderSnoc([f1], f2);
    assert [f1] + [f2] == [f1, f2];
    RenderStep("DEBUG=" + d, "BINARY", b, " BINARY=");
    RenderSnoc([f1, f2], f3);
    assert [f1, f2] + [f3] == [f1, f2, f3];
    RenderStep("DEBUG=" + d + " BINARY=" + b, "USE_MASS", m, " USE_MASS=");
    RenderSnoc([f1, f2, f3], f4);
    assert [f1, f2, f3] + [f4] == [f1, f2, f3, f4];
    RenderStep("DEBUG=" + d + " BINARY=" + b + " USE_MASS=" + m, "USE_OPENMP", p, " USE_OPENMP=");
  }

  /** Appending a flag appends a space and the flag. */
  lemma RenderToken(flags: seq<MakeFlag>, f: MakeFlag, token: string)
    requires |flags| > 0 && token == " " + RenderFlag(f)
    ensures Render(flags + [f]) == Render(flags) + token
  {
    RenderSnoc(flags, f);
    Assoc(Render(flags), " ", RenderFlag(f));
  }

  lemma TokenLiterals()
    ensures NoSharedToken == " " + RenderFlag(MakeFlag("NO_SHARED", "1"))
    ensures NoLapackeToken == " " + RenderFlag(MakeFlag("NO_LAPACKE", "1"))
  {
  }

  lemma RenderNoShared(flags: seq<MakeFlag>)
    requires |flags| > 0
    ensures Render(flags + [MakeFlag("NO_SHARED", "1")]) == Render(flags) + NoSharedToken
  {
    TokenLiterals();
    RenderToken(flags, MakeFlag("NO_SHARED", "1"), NoSharedToken);
  }

  lemma RenderNoLapacke(flags: seq<MakeFlag>)
    requires |flags| > 0
    ensures Render(flags + [MakeFlag("NO_LAPACKE", "1")]) == Render(flags) + NoLapackeToken
  {
    TokenLiterals();
    RenderToken(flags, MakeFlag("NO_LAPACKE", "1"), NoLapackeToken);
  }

  /** Both optional flags render as both tokens, ` NO_SHARED=1` first. */
  lemma RenderBothTokens(head: seq<MakeFlag>)
    requires |head| > 0
    ensures Render(head + [MakeFlag("NO_SHARED", "1"), MakeFlag("NO_LAPACKE", "1")])
         == Render(head) + (NoSharedToken + NoLapackeToken)
  {
    var noShared := MakeFlag("NO_SHARED", "1");
    RenderNoShared(head);
    RenderNoLapacke(head + [noShared]);
    assert head + [noShared, MakeFlag("NO_LAPACKE", "1")] == head + [noShared] + [MakeFlag("NO_LAPACKE", "1")];
    Assoc(Render(head), NoSharedToken, NoLapackeToken);
  }

  /** The optional flags and tokens, case by case. */
  lemma OptionalCases(o: Options)
    ensures !o.shared && o.noLapacke ==>
      OptionalFlags(o) == [MakeFlag("NO_SHARED", "1"), MakeFlag("NO_LAPACKE", "1")]
      && OptionalTokens(o) == NoSharedToken + NoLapackeToken
    ensures !o.shared && !o.noLapacke ==>
      OptionalFlags(o) == [MakeFlag("NO_SHARED", "1")] && OptionalTokens(o) == NoSharedToken
    ensures o.shared && o.noLapacke ==>
      OptionalFlags(o) == [MakeFlag("NO_LAPACKE", "1")] && OptionalTokens(o) == NoLapackeToken
    ensures o.shared && !o.noLapacke ==> OptionalFlags(o) == [] && OptionalTokens(o) == ""
  {
  }

  /** The optional flags render, after any non-empty list, as the optional tokens. */
  lemma RenderOptional(head: seq<MakeFlag>, o: Options)
    requires |head| > 0
    ensures Render(head + OptionalFlags(o)) == Render(head) + OptionalTokens(o)
  {
    OptionalCases(o);
    if !o.shared && o.noLapacke {
      RenderBothTokens(head);
    } else if !o.shared {
      RenderNoShared(head);
    } else if o.noLapacke {
      RenderNoLapacke(head);
    } else {
      assert head + [] == head;
    }
  }

  /** The four arguments that every `make` invocation starts with. */
  function MakeHeader(s: Settings, o: Options): string {
    "DEBUG=" + MakeBuildTypeDebug(s) + " BINARY=" + MakeArch(s)
    + " USE_MASS=" + MakeOptionValue(o.useMass)
    + " USE_OPENMP=" + MakeOptionValue(o.useOpenmp)
  }

  /** ` NO_SHARED=1` for a static build, then ` NO_LAPACKE=1` when LAPACKE is excluded. */
  function OptionalTokens(o: Options): string {
    (if !o.shared then NoSharedToken else "") + (if o.noLapacke then NoLapackeToken else "")
  }

  /** The rendered `make` argument string. */
  function MakeArguments(s: Settings, o: Options): string {
    Render(MakeFlags(s, o))
  }

  /** The build the recipe performs for validated settings and options. */
  function PlanFor(s: Settings, o: Options): BuildPlan {
    if s.compiler != VisualStudio then
      MakeBuild(MakeArguments(s, o))
    else
      CMakeBuild(map["USE_MASS" := o.useMass, "USE_OPENMP" := o.useOpenmp, "NO_LAPACKE" := o.noLapacke])
  }

  /** Conan runs `configure` before `build`: a refused configuration builds nothing. */
  function ConfiguredPlan(s: Settings, o: Options): Result<BuildPlan> {
    match Configure(s, o)
    case Fail(m) => Err(m)
    case Pass => Ok(PlanFor(s, o))
  }

  /**
    The `build` step: the argument string is formatted and then extended
    in place, or the CMake definitions are filled in key by key.
   */
  method Build(s: Settings, o: Options) returns (plan: BuildPlan)
    ensures plan == PlanFor(s, o)
  {
    if s.compiler != VisualStudio {
      var makeOptions := "DEBUG=" + MakeBuildTypeDebug(s) + " BINARY=" + MakeArch(s)
        + " USE_MASS=" + MakeOptionValue(o.useMass)
        + " USE_OPENMP=" + MakeOptionValue(o.useOpenmp);
      ghost var flags := HeaderFlags(s, o);
      RenderHeader(MakeBuildTypeDebug(s), MakeArch(s), MakeOptionValue(o.useMass), MakeOptionValue(o.useOpenmp));
      if !o.shared {
        RenderNoShared(flags);
        makeOptions := makeOptions + NoSharedToken;
        flags := flags + [MakeFlag("NO_SHARED", "1")];
      }
      if o.noLapacke {
        RenderNoLapacke(flags);
        makeOptions := makeOptions + NoLapackeToken;
        flags := flags + [MakeFlag("NO_LAPACKE", "1")];
      }
      assert flags == MakeFlags(s, o);
      plan := MakeBuild(makeOptions);
    } else {
      // Only the recipe's own entries; those of Conan's `CMake` helper are not modelled.
      var definitions: map<string, bool> := map[];
      definitions := definitions["USE_MASS" := o.useMass];
      definitions := definitions["USE_OPENMP" := o.useOpenmp];
      definitions := definitions["NO_LAPACKE" := o.noLapacke];
      plan := CMakeBuild(definitions);
    }
  }

  /** The argument string is the fixed header followed by the optional tokens, in that order. */
  lemma MakeArgumentsShape(s: Settings, o: Options)
    ensures MakeArguments(s, o) == MakeHeader(s, o) + OptionalTokens(o)
  {
    RenderHeader(MakeBuildTypeDebug(s), MakeArch(s), MakeOptionValue(o.useMass), MakeOptionValue(o.useOpenmp));
    RenderOptional(HeaderFlags(s, o), o);
  }

  /** Neither marker letter of the optional tokens appears in the header. */
  lemma HeaderAvoidsMarkers(s: Settings, o: Options)
    ensures 'H' !in MakeHeader(s, o) && 'K' !in MakeHeader(s, o)
  {
    var d, b, m, p := MakeBuildTypeDebug(s), MakeArch(s), MakeOptionValue(o.useMass), MakeOptionValue(o.useOpenmp);
    assert 'H' !in d && 'K' !in d && 'H' !in b && 'K' !in b;
    assert 'H' !in m && 'K' !in m && 'H' !in p && 'K' !in p;
    var x := "DEBUG=" + d;
    assert 'H' !in x && 'K' !in x;
    x := x + " BINARY=" + b;
    assert 'H' !in x && 'K' !in x;
    x := x + " USE_MASS=" + m;
    assert 'H' !in x && 'K' !in x;
    x := x + " USE_OPENMP=" + p;
    assert 'H' !in x && 'K' !in x;
  }

  /** On every compiler but Visual Studio the `make` arguments begin with the four-flag header. */
  lemma MakeArgumentsHeader(s: Settings, o: Options)
    requires s.compiler != VisualStudio
    ensures PlanFor(s, o).MakeBuild?
    ensures var args, header := PlanFor(s, o).arguments, MakeHeader(s, o);
      |header| <= |args| && args[..|header|] == header
  {
    MakeArgumentsShape(s, o);
  }

  /** Where ` NO_SHARED=1` occurs after a header without the letter `H`. */
  lemma NoSharedOccurrences(header: string, o: Options)
    requires 'H' !in header
    ensures Occurrences(header + OptionalTokens(o), NoSharedToken) == (if o.shared then {} else {|header|})
  {
    assert NoSharedToken[5] == 'H';
    var lapacke := if o.noLapacke then NoLapackeToken else "";
    assert 'H' !in lapacke;
    if o.shared {
      assert header + OptionalTokens(o) == header + lapacke;
      NoOccurrenceByMarker(header + lapacke, NoSharedToken, 5);
    } else {
      assert header + OptionalTokens(o) == header + NoSharedToken + lapacke;
      OccurrencesByMarker(header, NoSharedToken, lapacke, 5);
    }
  }

  /** Where ` NO_LAPACKE=1` occurs after a header without the letter `K`. */
  lemma NoLapackeOccurrences(header: string, o: Options)
    requires 'K' !in header
    ensures Occurrences(header + OptionalTokens(o), NoLapackeToken)
         == (if !o.noLapacke then {} else if o.shared then {|header|} else {|header| + |NoSharedToken|})
  {
    assert NoLapackeToken[9] == 'K';
    var shared := if !o.shared then NoSharedToken else "";
    assert 'K' !in shared;
    assert 'K' !in header + shared;
    if o.noLapacke {
      assert header + OptionalTokens(o) == (header + shared) + NoLapackeToken + "";
      OccurrencesByMarker(header + shared, NoLapackeToken, "", 9);
    } else {
      assert header + OptionalTokens(o) == header + shared;
      NoOccurrenceByMarker(header + shared, NoLapackeToken, 9);
    }
  }

  /**
    ` NO_SHARED=1` occurs exactly once, right after the header, when the
    build is static and never otherwise; ` NO_LAPACKE=1` occurs exactly
    once when LAPACKE is excluded, after ` NO_SHARED=1` when both apply.
   */
  lemma MakeArgumentsOptionalTokens(s: Settings, o: Options)
    requires s.compiler != VisualStudio
    ensures PlanFor(s, o).MakeBuild?
    ensures var args := PlanFor(s, o).arguments;
      var n := |MakeHeader(s, o)|;
      && Occurrences(args, NoSharedToken) == (if o.shared then {} else {n})
      && Occurrences(args, NoLapackeToken)
         == (if !o.noLapacke then {} else if o.shared then {n} else {n + |NoSharedToken|})
  {
    MakeArgumentsShape(s, o);
    HeaderAvoidsMarkers(s, o);
    NoSharedOccurrences(MakeHeader(s, o), o);
    NoLapackeOccurrences(MakeHeader(s, o), o);
  }

  /**
    On Visual Studio the CMake definitions hold exactly the three feature
    options, unchanged, whatever the architecture, build type and link mode.
   */
  lemma CMakeDefinitions(s: Settings, o: Options)
    requires s.compiler == VisualStudio
    ensures PlanFor(s, o).CMakeBuild?
    ensures var defs := PlanFor(s, o).definitions;
      && defs.Keys == {"USE_MASS", "USE_OPENMP", "NO_LAPACKE"}
      && defs["USE_MASS"] == o.useMass
      && defs["USE_OPENMP"] == o.useOpenmp
      && defs["NO_LAPACKE"] == o.noLapacke
  {
  }

  /** On Visual Studio the plan ignores every setting but the compiler, and the link mode. */
  lemma CMakePlanIgnoresTranslatedSettings(s1: Settings, o1: Options, s2: Settings, o2: Options)
    requires s1.compiler == VisualStudio && s2.compiler == VisualStudio
    requires o1.useMass == o2.useMass && o1.useOpenmp == o2.useOpenmp && o1.noLapacke == o2.noLapacke
    ensures PlanFor(s1, o1) == PlanFor(s2, o2)
  {
  }

  /** A build is planned exactly when `configure` accepts; the plan is then the `build` step's. */
  lemma ConfiguredPlanFailsOnlyForStaticVisualStudio(s: Settings, o: Options)
    ensures ConfiguredPlan(s, o).Err? <==> s.compiler == VisualStudio && !o.shared
    ensures ConfiguredPlan(s, o).Err? ==> ConfiguredPlan(s, o).message == StaticUnsupported
    ensures ConfiguredPlan(s, o).Ok? ==> ConfiguredPlan(s, o).value == PlanFor(s, o)
  {
  }

  /** The header of a Release build for a 64-bit target without MASS or OpenMP. */
  lemma ReleaseHeader(s: Settings, o: Options)
    requires s.arch == "x86_64" && s.buildType == "Release" && !o.useMass && !o.useOpenmp
    ensures MakeHeader(s, o) == "DEBUG=0 BINARY=64 USE_MASS=0 USE_OPENMP=0"
  {
    assert MakeBuildTypeDebug(s) == "0" && MakeArch(s) == "64";
    assert MakeOptionValue(o.useMass) == "0" && MakeOptionValue(o.useOpenmp) == "0";
    var x1 := "DEBUG=" + "0" + " BINARY=" + "64";
    assert x1 == "DEBUG=0 BINARY=64";
    var x2 := x1 + " USE_MASS=" + "0";
    assert x2 == "DEBUG=0 BINARY=64 USE_MASS=0";
    assert x2 + " USE_OPENMP=" + "0" == "DEBUG=0 BINARY=64 USE_MASS=0 USE_OPENMP=0";
  }

  /** Linux, x86_64, gcc, Release with the default options. */
  lemma ExampleReleaseDefaults()
    ensures PlanFor(Settings("Linux", "x86_64", "gcc", "Release"), DefaultOptions)
         == MakeBuild("DEBUG=0 BINARY=64 USE_MASS=0 USE_OPENMP=0")
  {
    var s := Settings("Linux", "x86_64", "gcc", "Release");
    MakeArgumentsShape(s, DefaultOptions);
    ReleaseHeader(s, DefaultOptions);
    assert OptionalTokens(DefaultOptions) == "";
  }

  /** The same with `shared=False`. */
  lemma ExampleReleaseStatic()
    ensures PlanFor(Settings("Linux", "x86_64", "gcc", "Release"), DefaultOptions.(shared := false))
         == MakeBuild("DEBUG=0 BINARY=64 USE_MASS=0 USE_OPENMP=0 NO_SHARED=1")
  {
    var s, o := Settings("Linux", "x86_64", "gcc", "Release"), DefaultOptions.(shared := false);
    MakeArgumentsShape(s, o);
    ReleaseHeader(s, o);
    OptionalCases(o);
    StaticReleaseLiteral();
  }

  lemma StaticReleaseLiteral()
    ensures "DEBUG=0 BINARY=64 USE_MASS=0 USE_OPENMP=0" + NoSharedToken
         == "DEBUG=0 BINARY=64 USE_MASS=0 USE_OPENMP=0 NO_SHARED=1"
  {
  }

  /** A static Visual Studio build is refused before anything is built. */
  lemma ExampleStaticVisualStudio()
    ensures ConfiguredPlan(Settings("Windows", "x86_64", VisualStudio, "Release"), DefaultOptions.(shared := false))
         == Err(StaticUnsupported)
  {
  }
}
