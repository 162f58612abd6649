/** The Botan package recipe: how the package manager's settings become the
    argument list of Botan's `configure.py`, and what a consumer of the
    package is told to link against and define. */
module BotanConan {
  import opened Text

  /** The two exceptions the translation can raise: a failed dictionary
      lookup (carrying the missing key) and an explicit `ValueError`. */
  datatype Error = KeyError(key: string) | ValueError(message: string)

  datatype Result<T> = Ok(value: T) | Err(error: Error) {
    predicate IsFailure() { Err? }

    function PropagateFailure<U>(): Result<U>
      requires Err?
    {
      Err(error)
    }

    function Extract(): T
      requires Ok?
    {
      value
    }
  }

  /** The settings and the `shared` option the recipe reads. Every setting
      is kept as the string the package manager supplies, so that values the
      recipe does not support can be represented. `libcxx`, `version` and
      `runtime` are the compiler's sub-settings. */
  datatype Settings = Settings(
    os: string,
    compiler: string,
    version: string,
    libcxx: string,
    runtime: string,
    arch: string,
    buildType: string,
    shared: bool)

  // ---------------------------------------------------------------------
  // Token tables

  const OsTable: map<string, string> := map["Windows" := "windows", "Linux" := "linux"]

  const CpuTable: map<string, string> := map["x86" := "x86_32", "x86_64" := "x86_64"]

  predicate SupportedOs(os: string) { os == "Windows" || os == "Linux" }

  predicate SupportedCompiler(compiler: string) {
    compiler == "Visual Studio" || compiler == "gcc" || compiler == "clang" || compiler == "apple-clang"
  }

  predicate SupportedArch(arch: string) { arch == "x86" || arch == "x86_64" }

  /** The `--os` token: a lookup that fails with the OS as the missing key. */
  function OsToken(os: string): (r: Result<string>)
    ensures r.Ok? <==> SupportedOs(os)
    ensures os == "Windows" ==> r == Ok("windows")
    ensures os == "Linux" ==> r == Ok("linux")
    ensures r.Err? ==> r.error == KeyError(os)
  {
    if os in OsTable then Ok(OsTable[os]) else Err(KeyError(os))
  }

  /** The `--cpu` token: a lookup that fails with the arch as the missing key. */
  function CpuToken(arch: string): (r: Result<string>)
    ensures r.Ok? <==> SupportedArch(arch)
    ensures arch == "x86" ==> r == Ok("x86_32")
    ensures arch == "x86_64" ==> r == Ok("x86_64")
    ensures r.Err? ==> r.error == KeyError(arch)
  {
    if arch in CpuTable then Ok(CpuTable[arch]) else Err(KeyError(arch))
  }

  /** The `--cc` token. gcc targeting Windows is MinGW; both clangs are
      `clang`; any other compiler is refused with a `ValueError`. */
  function CompilerToken(compiler: string, os: string): (r: Result<string>)
    ensures r.Ok? <==> SupportedCompiler(compiler)
    ensures r.Ok? ==> r.value in {"msvc", "mingw", "gcc", "clang"}
    ensures r == Ok("mingw") <==> compiler == "gcc" && os == "Windows"
    ensures compiler == "Visual Studio" ==> r == Ok("msvc")
    ensures compiler == "gcc" && os != "Windows" ==> r == Ok("gcc")
    ensures compiler == "clang" || compiler == "apple-clang" ==> r == Ok("clang")
    ensures r.Err? ==> r.error == ValueError("Unsupported compiler")
  {
    if compiler == "Visual Studio" then Ok("msvc")
    else if compiler == "gcc" then Ok(if os == "Windows" then "mingw" else "gcc")
    else if compiler in {"apple-clang", "clang"} then Ok("clang")
    else Err(ValueError("Unsupported compiler"))
  }

  // ---------------------------------------------------------------------
  // gcc extras

  /** The ABI flags, space-joined from a list of at most one flag chosen by
      the standard-library flavour. */
  function GccAbiFlags(libcxx: string): (r: string)
    ensures libcxx == "libstdc++" ==> r == "-D_GLIBCXX_USE_CXX11_ABI=0"
    ensures libcxx == "libstdc++11" ==> r == "-D_GLIBCXX_USE_CXX11_ABI=1"
    ensures libcxx != "libstdc++" && libcxx != "libstdc++11" ==> r == ""
  {
    var flags := [];
    var flags :=
      if libcxx == "libstdc++" then flags + ["-D_GLIBCXX_USE_CXX11_ABI=0"]
      else if libcxx == "libstdc++11" then flags + ["-D_GLIBCXX_USE_CXX11_ABI=1"]
      else flags;
    Join(flags, ' ')
  }

  /** The minimum compiler version: the dot-separated components of the
      version, padded with a "0" component when there is only one. */
  function GccMinVersion(version: string): string
  {
    var parts := Split(version, '.');
    var parts := if |parts| >= 2 then parts else parts + ["0"];
    Join(parts, '.')
  }

  /** A version that already has a dot is passed through unchanged. */
  lemma GccMinVersionKeepsDotted(version: string)
    requires '.' in version
    ensures GccMinVersion(version) == version
  {
    SplitPieceCount(version, '.');
    JoinSplit(version, '.');
  }

  /** A bare major version gets a ".0" minor component. */
  lemma GccMinVersionPadsBare(version: string)
    requires '.' !in version
    ensures GccMinVersion(version) == version + ".0"
  {
    SplitWithoutSep(version, '.');
    JoinAppend([version], '.', "0");
  }

  /** The result always has at least two components. */
  lemma GccMinVersionHasMinor(version: string)
    ensures |Split(GccMinVersion(version), '.')| >= 2
  {
    if '.' in version {
      GccMinVersionKeepsDotted(version);
    } else {
      GccMinVersionPadsBare(version);
      assert (version + ".0")[|version|] == '.';
    }
    SplitPieceCount(GccMinVersion(version), '.');
  }

  /** Normalising a normalised version changes nothing. */
  lemma GccMinVersionIdempotent(version: string)
    ensures GccMinVersion(GccMinVersion(version)) == GccMinVersion(version)
  {
    GccMinVersionHasMinor(version);
    SplitPieceCount(GccMinVersion(version), '.');
    GccMinVersionKeepsDotted(GccMinVersion(version));
  }

  // ---------------------------------------------------------------------
  // The configure argument list

  /** The options of `configure.py` the recipe passes. */
  datatype ConfigureOption =
    | Os | Cc | Cpu
    | CcAbiFlags | CcMinVersion | MsvcRuntime
    | DebugMode
    | EnableSharedLibrary | DisableStaticLibrary | EnableStaticLibrary | DisableSharedLibrary

  /** How each option is spelled on the command line. */
  function Spelling(o: ConfigureOption): string
  {
    match o
    case Os => "--os"
    case Cc => "--cc"
    case Cpu => "--cpu"
    case CcAbiFlags => "--cc-abi-flags"
    case CcMinVersion => "--cc-min-version"
    case MsvcRuntime => "--msvc-runtime"
    case DebugMode => "--debug-mode"
    case EnableSharedLibrary => "--enable-shared-library"
    case DisableStaticLibrary => "--disable-static-library"
    case EnableStaticLibrary => "--enable-static-library"
    case DisableSharedLibrary => "--disable-shared-library"
  }

  /** One argument before it is rendered: an option with a value (the
      recipe's `(key, value)` pairs) or a bare flag. */
  datatype Arg = Valued(option: ConfigureOption, value: string) | Flag(option: ConfigureOption)

  /** The command-line text of an argument; a pair is `"=".join((key, value))`. */
  function Render(a: Arg): string
  {
    match a
    case Valued(o, v) => Join([Spelling(o), v], '=')
    case Flag(o) => Spelling(o)
  }

  function RenderAll(args: seq<Arg>): (r: seq<string>)
    ensures |r| == |args|
    ensures forall i :: 0 <= i < |args| ==> r[i] == Render(args[i])
  {
    seq(|args|, i requires 0 <= i < |args| => Render(args[i]))
  }

  /** The arguments in the order the recipe appends them: the three tokens,
      the compiler's extras, the debug flag and the link-mode pair. */
  function ConfigureArgs(s: Settings): Result<seq<Arg>>
  {
    var os :- OsToken(s.os);
    var cc :- CompilerToken(s.compiler, s.os);
    var cpu :- CpuToken(s.arch);
    Ok([Valued(Os, os), Valued(Cc, cc), Valued(Cpu, cpu)]
       + CompilerArgs(s) + DebugArgs(s.buildType) + LinkArgs(s.shared))
  }

  /** gcc passes its ABI flags and minimum version, Visual Studio its
      runtime; other compilers pass nothing more. */
  function CompilerArgs(s: Settings): seq<Arg>
  {
    if s.compiler == "gcc" then
      [Valued(CcAbiFlags, GccAbiFlags(s.libcxx)), Valued(CcMinVersion, GccMinVersion(s.version))]
    else if s.compiler == "Visual Studio" then [Valued(MsvcRuntime, s.runtime)]
    else []
  }

  function DebugArgs(buildType: string): seq<Arg>
  {
    if buildType == "Debug" then [Flag(DebugMode)] else []
  }

  function LinkArgs(shared: bool): seq<Arg>
  {
    if shared then [Flag(EnableSharedLibrary), Flag(DisableStaticLibrary)]
    else [Flag(EnableStaticLibrary), Flag(DisableSharedLibrary)]
  }

  /** The argument list for `configure.py`. The tokens are looked up in the
      order OS, compiler, CPU, so the first unsupported one decides the
      error; on failure no list exists. */
  function ConfigureParams(s: Settings): (r: Result<seq<string>>)
    ensures r.Ok? <==> SupportedOs(s.os) && SupportedCompiler(s.compiler) && SupportedArch(s.arch)
    ensures !SupportedOs(s.os) ==> r == Err(KeyError(s.os))
    ensures SupportedOs(s.os) && !SupportedCompiler(s.compiler) ==> r == Err(ValueError("Unsupported compiler"))
    ensures SupportedOs(s.os) && SupportedCompiler(s.compiler) && !SupportedArch(s.arch) ==> r == Err(KeyError(s.arch))
  {
    var args :- ConfigureArgs(s);
    Ok(RenderAll(args))
  }

  // ---------------------------------------------------------------------
  // Option names in the rendered list

  /** The option name of a rendered argument: the text before its first
      '=' (the whole argument for a bare flag). */
  function Key(arg: string): string
  {
    Split(arg, '=')[0]
  }

  lemma SpellingInjective(a: ConfigureOption, b: ConfigureOption)
    requires Spelling(a) == Spelling(b)
    ensures a == b
  {
  }

  /** No option name contains '=', so the name of a rendered argument can be
      read back from its text. */
  lemma SpellingHasNoEquals(o: ConfigureOption)
    ensures '=' !in Spelling(o)
  {
  }

  /** A rendered argument names its option, and a valued one is that name,
      '=' and the value. */
  lemma RenderKey(a: Arg)
    ensures Key(Render(a)) == Spelling(a.option)
    ensures a.Valued? ==> Render(a) == Spelling(a.option) + "=" + a.value
  {
    SpellingHasNoEquals(a.option);
    if a.Valued? {
      JoinPair(Spelling(a.option), '=', a.value);
      SplitAfterPiece(Spelling(a.option), '=', a.value);
    } else {
      SplitWithoutSep(Spelling(a.option), '=');
    }
  }

  /** A bare flag's text appears in the rendered list exactly when the flag
      is among the arguments. */
  lemma RenderedFlag(args: seq<Arg>, o: ConfigureOption)
    ensures Spelling(o) in RenderAll(args) <==> Flag(o) in args
  {
    var r := RenderAll(args);
    if Spelling(o) in r {
      var i :| 0 <= i < |r| && r[i] == Spelling(o);
      RenderKey(args[i]);
      RenderKey(Flag(o));
      SpellingInjective(args[i].option, o);
      assert |Render(args[i])| == |Spelling(o)|;
      assert args[i] == Flag(o);
    }
    if Flag(o) in args {
      var i :| 0 <= i < |args| && args[i] == Flag(o);
      assert r[i] == Spelling(o);
    }
  }

  lemma ConfigureArgsParts(s: Settings, args: seq<Arg>)
    requires ConfigureArgs(s) == Ok(args)
    ensures args == [Valued(Os, OsToken(s.os).value), Valued(Cc, CompilerToken(s.compiler, s.os).value),
                     Valued(Cpu, CpuToken(s.arch).value)]
                    + CompilerArgs(s) + DebugArgs(s.buildType) + LinkArgs(s.shared)
  {
  }

  /** The argument structure behind a successful list: the three tokens
      first, and none of their options again after them. */
  lemma ConfigureArgsTokens(s: Settings, args: seq<Arg>)
    requires ConfigureArgs(s) == Ok(args)
    ensures |args| >= 5
    ensures args[0] == Valued(Os, OsToken(s.os).value)
    ensures args[1] == Valued(Cc, CompilerToken(s.compiler, s.os).value)
    ensures args[2] == Valued(Cpu, CpuToken(s.arch).value)
    ensures forall i :: 3 <= i < |args| ==> args[i].option !in {Os, Cc, Cpu}
  {
    ConfigureArgsParts(s, args);
  }

  // ---------------------------------------------------------------------
  // Properties of the argument list

  /** The argument structure behind a successful list. */
  lemma ConfigureArgsOf(s: Settings, r: seq<string>) returns (args: seq<Arg>)
    requires ConfigureParams(s) == Ok(r)
    ensures ConfigureArgs(s) == Ok(args) && r == RenderAll(args)
  {
    args := ConfigureArgs(s).value;
  }

  /** The list starts with the OS, compiler and CPU tokens, in that order. */
  lemma ConfigureParamsPrefix(s: Settings, r: seq<string>)
    requires ConfigureParams(s) == Ok(r)
    ensures |r| >= 5
    ensures r[0] == Spelling(Os) + "=" + OsToken(s.os).value
    ensures r[1] == Spelling(Cc) + "=" + CompilerToken(s.compiler, s.os).value
    ensures r[2] == Spelling(Cpu) + "=" + CpuToken(s.arch).value
  {
    var args := ConfigureArgsOf(s, r);
    ConfigureArgsTokens(s, args);
    RenderKey(args[0]);
    RenderKey(args[1]);
    RenderKey(args[2]);
  }

  /** Each of `--os`, `--cc` and `--cpu` is given exactly once, at its place
      in the prefix. */
  lemma ConfigureParamsTokensOnce(s: Settings, r: seq<string>)
    requires ConfigureParams(s) == Ok(r)
    ensures forall i :: 0 <= i < |r| ==> (Key(r[i]) == Spelling(Os) <==> i == 0)
    ensures forall i :: 0 <= i < |r| ==> (Key(r[i]) == Spelling(Cc) <==> i == 1)
    ensures forall i :: 0 <= i < |r| ==> (Key(r[i]) == Spelling(Cpu) <==> i == 2)
  {
    var args := ConfigureArgsOf(s, r);
    ConfigureArgsTokens(s, args);
    forall i | 0 <= i < |r|
      ensures Key(r[i]) == Spelling(Os) <==> i == 0
      ensures Key(r[i]) == Spelling(Cc) <==> i == 1
      ensures Key(r[i]) == Spelling(Cpu) <==> i == 2
    {
      RenderKey(args[i]);
      var o := args[i].option;
      if Spelling(o) == Spelling(Os) { SpellingInjective(o, Os); }
      if Spelling(o) == Spelling(Cc) { SpellingInjective(o, Cc); }
      if Spelling(o) == Spelling(Cpu) { SpellingInjective(o, Cpu); }
    }
  }

  /** The place of an option in the order the recipe appends them. */
  function Rank(o: ConfigureOption): nat
  {
    match o
    case Os => 0
    case Cc => 1
    case Cpu => 2
    case CcAbiFlags => 3
    case CcMinVersion => 4
    case MsvcRuntime => 5
    case DebugMode => 6
    case EnableSharedLibrary => 7
    case DisableStaticLibrary => 8
    case EnableStaticLibrary => 9
    case DisableSharedLibrary => 10
  }

  /** The options of `args` come in strictly increasing rank. */
  predicate InOrder(args: seq<Arg>)
  {
    forall i, j :: 0 <= i < j < |args| ==> Rank(args[i].option) < Rank(args[j].option)
  }

  /** Every option of `args` has a rank in `[lo, hi)`. */
  predicate RanksWithin(args: seq<Arg>, lo: nat, hi: nat)
  {
    forall i :: 0 <= i < |args| ==> lo <= Rank(args[i].option) < hi
  }

  /** Two ordered lists whose rank ranges follow each other concatenate to an
      ordered list. */
  lemma InOrderConcat(a: seq<Arg>, b: seq<Arg>, lo: nat, mid: nat, hi: nat)
    requires lo <= mid <= hi
    requires InOrder(a) && RanksWithin(a, lo, mid)
    requires InOrder(b) && RanksWithin(b, mid, hi)
    ensures InOrder(a + b) && RanksWithin(a + b, lo, hi)
  {
    var c := a + b;
    forall i, j | 0 <= i < j < |c|
      ensures Rank(c[i].option) < Rank(c[j].option)
    {
      if j < |a| {
        assert c[i] == a[i] && c[j] == a[j];
      } else if i < |a| {
        assert c[i] == a[i] && c[j] == b[j - |a|];
      } else {
        assert c[i] == b[i - |a|] && c[j] == b[j - |a|];
      }
    }
    forall i | 0 <= i < |c|
      ensures lo <= Rank(c[i].option) < hi
    {
      if i < |a| { assert c[i] == a[i]; } else { assert c[i] == b[i - |a|]; }
    }
  }

  lemma TokenArgsInOrder(os: string, cc: string, cpu: string)
    ensures InOrder([Valued(Os, os), Valued(Cc, cc), Valued(Cpu, cpu)])
    ensures RanksWithin([Valued(Os, os), Valued(Cc, cc), Valued(Cpu, cpu)], 0, 3)
  {
  }

  lemma CompilerArgsInOrder(s: Settings)
    ensures InOrder(CompilerArgs(s)) && RanksWithin(CompilerArgs(s), 3, 6)
  {
  }

  lemma DebugArgsInOrder(buildType: string)
    ensures InOrder(DebugArgs(buildType)) && RanksWithin(DebugArgs(buildType), 6, 7)
  {
  }

  lemma LinkArgsInOrder(shared: bool)
    ensures InOrder(LinkArgs(shared)) && RanksWithin(LinkArgs(shared), 7, 11)
  {
  }

  /** The arguments always come in the recipe's fixed option order. */
  lemma ConfigureArgsInOrder(s: Settings, args: seq<Arg>)
    requires ConfigureArgs(s) == Ok(args)
    ensures InOrder(args)
  {
    ConfigureArgsParts(s, args);
    var os, cc, cpu := OsToken(s.os).value, CompilerToken(s.compiler, s.os).value, CpuToken(s.arch).value;
    var tokens := [Valued(Os, os), Valued(Cc, cc), Valued(Cpu, cpu)];
    var extras, debug, link := CompilerArgs(s), DebugArgs(s.buildType), LinkArgs(s.shared);
    TokenArgsInOrder(os, cc, cpu);
    CompilerArgsInOrder(s);
    DebugArgsInOrder(s.buildType);
    LinkArgsInOrder(s.shared);
    InOrderConcat(tokens, extras, 0, 3, 6);
    InOrderConcat(tokens + extras, debug, 0, 6, 7);
    InOrderConcat(tokens + extras + debug, link, 0, 7, 11);
  }

  /** No option is given twice: the names of any two arguments differ. */
  lemma ConfigureParamsNoDuplicates(s: Settings, r: seq<string>)
    requires ConfigureParams(s) == Ok(r)
    ensures forall i, j :: 0 <= i < j < |r| ==> Key(r[i]) != Key(r[j])
  {
    var args := ConfigureArgsOf(s, r);
    ConfigureArgsInOrder(s, args);
    forall i, j | 0 <= i < j < |r|
      ensures Key(r[i]) != Key(r[j])
    {
      RenderKey(args[i]);
      RenderKey(args[j]);
      if Key(r[i]) == Key(r[j]) {
        SpellingInjective(args[i].option, args[j].option);
      }
    }
  }

  /** What the compiler adds after the tokens, in the argument structure. */
  lemma ConfigureArgsExtras(s: Settings, args: seq<Arg>)
    requires ConfigureArgs(s) == Ok(args)
    ensures |args| == 5 + (if s.compiler == "gcc" then 2 else if s.compiler == "Visual Studio" then 1 else 0)
                        + (if s.buildType == "Debug" then 1 else 0)
    ensures s.compiler == "gcc" ==>
      args[3] == Valued(CcAbiFlags, GccAbiFlags(s.libcxx)) && args[4] == Valued(CcMinVersion, GccMinVersion(s.version))
    ensures s.compiler == "Visual Studio" ==> args[3] == Valued(MsvcRuntime, s.runtime)
  {
    ConfigureArgsParts(s, args);
  }

  /** Only gcc's list has the gcc options, only Visual Studio's the runtime. */
  lemma ConfigureArgsExtrasOnly(s: Settings, args: seq<Arg>)
    requires ConfigureArgs(s) == Ok(args)
    ensures forall i :: 0 <= i < |args| && args[i].option in {CcAbiFlags, CcMinVersion} ==> s.compiler == "gcc"
    ensures forall i :: 0 <= i < |args| && args[i].option == MsvcRuntime ==> s.compiler == "Visual Studio"
  {
    ConfigureArgsParts(s, args);
  }

  /** The debug flag in the argument structure. */
  lemma ConfigureArgsDebug(s: Settings, args: seq<Arg>)
    requires ConfigureArgs(s) == Ok(args)
    ensures |args| >= 5
    ensures Flag(DebugMode) in args <==> s.buildType == "Debug"
    ensures s.buildType == "Debug" ==> args[|args| - 3] == Flag(DebugMode)
  {
    ConfigureArgsParts(s, args);
  }

  /** The link-mode pair in the argument structure. */
  lemma ConfigureArgsLink(s: Settings, args: seq<Arg>)
    requires ConfigureArgs(s) == Ok(args)
    ensures |args| >= 5
    ensures s.shared ==> args[|args| - 2] == Flag(EnableSharedLibrary) && args[|args| - 1] == Flag(DisableStaticLibrary)
    ensures !s.shared ==> args[|args| - 2] == Flag(EnableStaticLibrary) && args[|args| - 1] == Flag(DisableSharedLibrary)
    ensures Flag(EnableSharedLibrary) in args <==> s.shared
    ensures Flag(DisableStaticLibrary) in args <==> s.shared
    ensures Flag(EnableStaticLibrary) in args <==> !s.shared
    ensures Flag(DisableSharedLibrary) in args <==> !s.shared
  {
    ConfigureArgsParts(s, args);
  }

  /** gcc adds exactly the ABI flags and the minimum version, Visual Studio
      exactly the runtime, passed through unchanged, and any other compiler
      nothing. */
  lemma ConfigureParamsCompilerExtras(s: Settings, r: seq<string>)
    requires ConfigureParams(s) == Ok(r)
    ensures |r| == 5 + (if s.compiler == "gcc" then 2 else if s.compiler == "Visual Studio" then 1 else 0)
                     + (if s.buildType == "Debug" then 1 else 0)
    ensures s.compiler == "gcc" ==>
      && r[3] == Spelling(CcAbiFlags) + "=" + GccAbiFlags(s.libcxx)
      && r[4] == Spelling(CcMinVersion) + "=" + GccMinVersion(s.version)
    ensures s.compiler == "Visual Studio" ==> r[3] == Spelling(MsvcRuntime) + "=" + s.runtime
    ensures (exists i :: 0 <= i < |r| && Key(r[i]) == Spelling(CcAbiFlags)) <==> s.compiler == "gcc"
    ensures (exists i :: 0 <= i < |r| && Key(r[i]) == Spelling(CcMinVersion)) <==> s.compiler == "gcc"
    ensures (exists i :: 0 <= i < |r| && Key(r[i]) == Spelling(MsvcRuntime)) <==> s.compiler == "Visual Studio"
  {
    var args := ConfigureArgsOf(s, r);
    ConfigureArgsExtras(s, args);
    ConfigureArgsExtrasOnly(s, args);
    forall i | 0 <= i < |r| ensures Key(r[i]) == Spelling(args[i].option) {
      RenderKey(args[i]);
    }
    if s.compiler == "gcc" {
      RenderKey(args[3]);
      RenderKey(args[4]);
      assert Key(r[3]) == Spelling(CcAbiFlags) && Key(r[4]) == Spelling(CcMinVersion);
    } else if s.compiler == "Visual Studio" {
      RenderKey(args[3]);
      assert Key(r[3]) == Spelling(MsvcRuntime);
    }
    forall i | 0 <= i < |r|
      ensures Key(r[i]) == Spelling(CcAbiFlags) ==> s.compiler == "gcc"
      ensures Key(r[i]) == Spelling(CcMinVersion) ==> s.compiler == "gcc"
      ensures Key(r[i]) == Spelling(MsvcRuntime) ==> s.compiler == "Visual Studio"
    {
      var o := args[i].option;
      if Key(r[i]) == Spelling(CcAbiFlags) { SpellingInjective(o, CcAbiFlags); }
      if Key(r[i]) == Spelling(CcMinVersion) { SpellingInjective(o, CcMinVersion); }
      if Key(r[i]) == Spelling(MsvcRuntime) { SpellingInjective(o, MsvcRuntime); }
    }
  }

  /** `--debug-mode` is passed exactly for Debug builds, just before the
      link-mode pair. */
  lemma ConfigureParamsDebug(s: Settings, r: seq<string>)
    requires ConfigureParams(s) == Ok(r)
    ensures Spelling(DebugMode) in r <==> s.buildType == "Debug"
    ensures s.buildType == "Debug" ==> r[|r| - 3] == Spelling(DebugMode)
  {
    var args := ConfigureArgsOf(s, r);
    ConfigureArgsDebug(s, args);
    RenderedFlag(args, DebugMode);
  }

  /** The list ends with exactly one link-mode pair: enable shared and
      disable static for a shared build, the reverse for a static one; the
      flags of the other pair occur nowhere. */
  lemma ConfigureParamsLinkMode(s: Settings, r: seq<string>)
    requires ConfigureParams(s) == Ok(r)
    ensures s.shared ==> r[|r| - 2] == Spelling(EnableSharedLibrary) && r[|r| - 1] == Spelling(DisableStaticLibrary)
    ensures !s.shared ==> r[|r| - 2] == Spelling(EnableStaticLibrary) && r[|r| - 1] == Spelling(DisableSharedLibrary)
    ensures Spelling(EnableSharedLibrary) in r <==> s.shared
    ensures Spelling(DisableStaticLibrary) in r <==> s.shared
    ensures Spelling(EnableStaticLibrary) in r <==> !s.shared
    ensures Spelling(DisableSharedLibrary) in r <==> !s.shared
  {
    var args := ConfigureArgsOf(s, r);
    ConfigureArgsLink(s, args);
    RenderedFlag(args, EnableSharedLibrary);
    RenderedFlag(args, DisableStaticLibrary);
    RenderedFlag(args, EnableStaticLibrary);
    RenderedFlag(args, DisableSharedLibrary);
  }

  // ---------------------------------------------------------------------
  // What a consumer links against and defines

  /** The link libraries: Botan and two Windows system libraries under
      Visual Studio; otherwise Botan 2, libdl and librt, plus pthread for a
      static build. */
  function Libs(compiler: string, shared: bool): (libs: seq<string>)
    ensures compiler == "Visual Studio" ==> libs == ["botan", "user32", "ws2_32"]
    ensures compiler != "Visual Studio" ==> |libs| >= 3 && libs[..3] == ["botan-2", "dl", "rt"]
    ensures compiler != "Visual Studio" ==> ("pthread" in libs <==> !shared)
    ensures compiler != "Visual Studio" ==> |libs| == if shared then 3 else 4
  {
    var libs := [];
    if compiler == "Visual Studio" then libs + ["botan", "user32", "ws2_32"]
    else
      var libs := libs + ["botan-2", "dl", "rt"];
      if !shared then libs + ["pthread"] else libs
  }

  /** The `BOTAN_DLL` define a consumer must set. */
  function DllDefine(shared: bool): string
  {
    if shared then "BOTAN_DLL=1" else "BOTAN_DLL="
  }

  /** The define is always `BOTAN_DLL`, with value "1" for a shared build
      and an empty value for a static one. */
  lemma DllDefineValue(shared: bool)
    ensures Split(DllDefine(shared), '=') == ["BOTAN_DLL", if shared then "1" else ""]
  {
    assert "BOTAN_DLL" + "=" + "1" == "BOTAN_DLL=1";
    assert "BOTAN_DLL" + "=" + "" == "BOTAN_DLL=";
    SplitAfterPiece("BOTAN_DLL", '=', if shared then "1" else "");
    SplitWithoutSep(if shared then "1" else "", '=');
  }

  /** The consumer information the package manager collects. */
  class CppInfo {
    var libs: seq<string>
    var defines: seq<string>

    constructor ()
      ensures libs == [] && defines == []
    {
      libs := [];
      defines := [];
    }
  }

  /** `package_info`: set the link libraries and append the define. */
  method PackageInfo(s: Settings, info: CppInfo)
    modifies info
    ensures info.libs == Libs(s.compiler, s.shared)
    ensures info.defines == old(info.defines) + [DllDefine(s.shared)]
  {
    info.libs := Libs(s.compiler, s.shared);
    if s.shared {
      info.defines := info.defines + ["BOTAN_DLL=1"];
    } else {
      info.defines := info.defines + ["BOTAN_DLL="];
    }
  }

  /** What a consumer is given agrees with how configure was told to build:
      `BOTAN_DLL=1` exactly when the shared library was enabled, the empty
      define exactly when the static one was, and (outside Visual Studio)
      pthread among the libraries exactly for the static library. */
  lemma ConsumerInfoMatchesConfigure(s: Settings, r: seq<string>)
    requires ConfigureParams(s) == Ok(r)
    ensures DllDefine(s.shared) == "BOTAN_DLL=1" <==> Spelling(EnableSharedLibrary) in r
    ensures DllDefine(s.shared) == "BOTAN_DLL=" <==> Spelling(EnableStaticLibrary) in r
    ensures s.compiler != "Visual Studio" ==> ("pthread" in Libs(s.compiler, s.shared) <==> Spelling(EnableStaticLibrary) in r)
  {
    ConfigureParamsLinkMode(s, r);
  }

  /** A shared gcc 9.3 build on 64-bit Linux, end to end: the arguments
      (each rendered as its option's spelling, '=' and the value, or the bare
      flag), the link libraries and the define. */
  lemma LinuxGccSharedExample(s: Settings)
    requires s == Settings("Linux", "gcc", "9.3", "libstdc++11", "", "x86_64", "Release", true)
    ensures ConfigureArgs(s)
      == Ok([Valued(Os, "linux"), Valued(Cc, "gcc"), Valued(Cpu, "x86_64"),
             Valued(CcAbiFlags, "-D_GLIBCXX_USE_CXX11_ABI=1"), Valued(CcMinVersion, "9.3"),
             Flag(EnableSharedLibrary), Flag(DisableStaticLibrary)])
    ensures Libs(s.compiler, s.shared) == ["botan-2", "dl", "rt"]
    ensures DllDefine(s.shared) == "BOTAN_DLL=1"
  {
    GccMinVersionKeepsDotted("9.3");
    assert SupportedOs(s.os) && SupportedCompiler(s.compiler) && SupportedArch(s.arch);
    assert ConfigureParams(s).Ok?;
    var args := ConfigureArgs(s).value;
    ConfigureArgsParts(s, args);
    assert OsToken(s.os).value == "linux";
    assert |args| == 7;
    assert args == [Valued(Os, "linux"), Valued(Cc, "gcc"), Valued(Cpu, "x86_64"),
                    Valued(CcAbiFlags, "-D_GLIBCXX_USE_CXX11_ABI=1"), Valued(CcMinVersion, "9.3"),
                    Flag(EnableSharedLibrary), Flag(DisableStaticLibrary)];
  }

  /** A bare major version gains its minor component; a dotted one is kept. */
  lemma GccMinVersionExamples()
    ensures GccMinVersion("9") == "9.0"
    ensures GccMinVersion("9.3") == "9.3"
  {
    GccMinVersionPadsBare("9");
    GccMinVersionKeepsDotted("9.3");
  }
}
