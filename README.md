# Botan package recipe: settings translation

This project models the one piece of logic in the Conan recipe that packages
Botan 2.10.0: the translation of the package manager's build settings into
the argument list for Botan's own `configure.py`, together with the link
libraries and the `BOTAN_DLL` define that the recipe hands to consumers.

- `text.dfy`, module `Text`: Python's `str.split` on a one-character
  separator and `str.join`, with their round-trip lemmas. The recipe uses
  them to normalise the gcc version and, with `=`, to render each
  `(key, value)` pair as one argument.
- `botan_conan.dfy`, module `BotanConan`:
  - `Settings` holds the operating system, the compiler with its version,
    libcxx flavour and runtime, the architecture, the build type and the
    `shared` option. Every setting is a string, so unsupported values can be
    represented.
  - `OsToken`, `CompilerToken` and `CpuToken` are the three lookup tables.
    A lookup either returns a token or fails with the exception the recipe
    raises: `KeyError` carrying the missing key for the two dictionaries,
    and `ValueError("Unsupported compiler")` for the compiler.
  - `GccAbiFlags` and `GccMinVersion` compute the two gcc-only values.
  - `ConfigureArgs` builds the arguments as structured values, in the
    recipe's order: the tokens, the compiler's extras, the debug flag, then
    the link-mode pair. An argument is either an option with a value or a
    bare flag, and the options form the closed type `ConfigureOption`.
  - `ConfigureParams` renders each argument to its command-line text.
  - `Libs`, `DllDefine` and the method `PackageInfo` (over the consumer-info
    object `CppInfo`) model `_get_libs` and `package_info`.

The lemmas state the fixed prefix, the fixed option order and the absence
of repeated options, the compiler-specific extras, the debug flag, the
exclusive link-mode pair, the version normalisation and its idempotence, and
the agreement between what the consumer is told and how configure was asked
to build.

Two behaviours of the recipe worth noting:
- An unrecognised libcxx flavour under gcc still emits `--cc-abi-flags=`
  with an empty value. The option is not dropped.
- Unsupported settings raise `KeyError` or `ValueError`, not a dedicated
  error kind. The first failing lookup, in the order OS, compiler, CPU,
  decides which error is raised.

## Model

| member | source | states |
|---|---|---|
| `BotanConan.OsToken` | conanfile.py:83-87 | "Windows" maps to `windows`, "Linux" to `linux`. Success happens exactly for those two. Any other OS fails with `KeyError` carrying that OS. |
| `BotanConan.CpuToken` | conanfile.py:77-81 | "x86" maps to `x86_32`, "x86_64" to `x86_64`. Success happens exactly for those two. Any other arch fails with `KeyError` carrying that arch. |
| `BotanConan.CompilerToken` | conanfile.py:68-75 | Success happens exactly for Visual Studio, gcc, clang and apple-clang. The token is one of msvc/mingw/gcc/clang. It is `mingw` iff the compiler is gcc and the OS is Windows. Visual Studio gives `msvc`; both clangs give `clang`. Any other compiler fails with `ValueError("Unsupported compiler")`. |
| `BotanConan.GccAbiFlags` | conanfile.py:89-95 | libstdc++ gives `-D_GLIBCXX_USE_CXX11_ABI=0`. libstdc++11 gives `-D_GLIBCXX_USE_CXX11_ABI=1`. Any other flavour gives the empty string. |
| `BotanConan.GccMinVersion` | conanfile.py:97-101 | Splits the version on dots, pads with a "0" component when there are fewer than two, and joins again. Specified for every input by `GccMinVersionKeepsDotted` and `GccMinVersionPadsBare`. |
| `BotanConan.GccMinVersionKeepsDotted` | conanfile.py:97-101 | A version with a dot, i.e. two or more components, is returned unchanged. |
| `BotanConan.GccMinVersionPadsBare` | conanfile.py:97-101 | A version without a dot becomes `version + ".0"`. |
| `BotanConan.GccMinVersionHasMinor` | conanfile.py:97-101 | The normalised version always splits into at least two dot-separated components. |
| `BotanConan.GccMinVersionIdempotent` | conanfile.py:97-101 | Normalising an already normalised version changes nothing. |
| `BotanConan.GccMinVersionExamples` | conanfile.py:97-101 | "9" becomes "9.0"; "9.3" stays "9.3". |
| `BotanConan.ConfigureArgs` | conanfile.py:103-124 | Looks up the three tokens with the first failure propagated, then lists the tokens, the compiler's extras, the debug flag and the link pair. Its order is stated by `ConfigureArgsInOrder`; its positions through the `ConfigureParams*` lemmas. |
| `BotanConan.CompilerArgs` | conanfile.py:109-117 | gcc's ABI flags and minimum version, Visual Studio's runtime, nothing otherwise. Specified by `ConfigureParamsCompilerExtras`. |
| `BotanConan.DebugArgs` | conanfile.py:118-119 | The debug flag for a Debug build only. Specified by `ConfigureParamsDebug`. |
| `BotanConan.LinkArgs` | conanfile.py:120-123 | The shared or the static pair of flags. Specified by `ConfigureParamsLinkMode`. |
| `BotanConan.Render` | conanfile.py:104-108 | A valued argument is `"=".join((key, value))`; a flag is its name alone. Specified by `RenderKey`. |
| `BotanConan.RenderAll` | conanfile.py:104-117 | The rendered list has one entry per argument, each the rendering of the argument at the same position. |
| `BotanConan.ConfigureParams` | conanfile.py:103-124 | A list exists iff OS, compiler and arch are all supported. Otherwise the error is that of the first unsupported lookup in the order OS, compiler, arch, and no list is produced. |
| `BotanConan.RenderKey` | conanfile.py:104-108 | A rendered argument's text before its first `=` is its option name. A valued argument renders as name, `=`, value. |
| `BotanConan.ConfigureParamsPrefix` | conanfile.py:104-108 | On success, the list begins `--os=<os token>`, `--cc=<cc token>`, `--cpu=<cpu token>`, in that order, and has at least five entries. |
| `BotanConan.ConfigureParamsTokensOnce` | conanfile.py:104-108 | On success, the arguments named `--os`, `--cc` and `--cpu` occur only at positions 0, 1 and 2 respectively. |
| `BotanConan.ConfigureArgsInOrder` | conanfile.py:103-124 | Whatever the settings, the options appear in the recipe's fixed order: os, cc, cpu, the gcc options or the runtime, the debug flag, then the link pair. Each option's rank is strictly greater than the previous one's. |
| `BotanConan.ConfigureParamsNoDuplicates` | conanfile.py:103-124 | On success, no option name occurs twice in the list: any two entries have different names. |
| `BotanConan.ConfigureParamsCompilerExtras` | conanfile.py:109-117 | gcc adds exactly `--cc-abi-flags=<flags>` then `--cc-min-version=<version>`. Visual Studio adds exactly `--msvc-runtime=<runtime>`, with the runtime unchanged. Each of those options is present iff its compiler is used. The list length counts only these extras. |
| `BotanConan.ConfigureParamsDebug` | conanfile.py:118-119 | `--debug-mode` is present iff the build type is Debug. When present, it sits just before the link pair. |
| `BotanConan.ConfigureParamsLinkMode` | conanfile.py:120-123 | The list ends with `--enable-shared-library, --disable-static-library` when shared and with `--enable-static-library, --disable-shared-library` otherwise. Each of the four flags is present iff its mode is chosen, so the list never holds both pairs and never neither. |
| `BotanConan.Libs` | conanfile.py:58-66 | Visual Studio gets exactly `[botan, user32, ws2_32]`. Other compilers get `[botan-2, dl, rt]` first. `pthread` is present iff the build is not shared, making four libraries instead of three. |
| `BotanConan.DllDefine` | conanfile.py:40-43 | `BOTAN_DLL=1` for a shared build, `BOTAN_DLL=` for a static one. Specified by `DllDefineValue` and tied to the configure flags by `ConsumerInfoMatchesConfigure`. |
| `BotanConan.DllDefineValue` | conanfile.py:40-43 | The define is named `BOTAN_DLL`. Its value is "1" for a shared build and empty for a static one. |
| `BotanConan.PackageInfo` | conanfile.py:37-43 | Sets the consumer's libraries to `Libs` and appends exactly the one `BOTAN_DLL` define to the existing defines. |
| `BotanConan.ConsumerInfoMatchesConfigure` | conanfile.py:40-43 | The define is `BOTAN_DLL=1` iff configure got `--enable-shared-library` (conanfile.py:120-123). It is `BOTAN_DLL=` iff configure got `--enable-static-library`. Outside Visual Studio, `pthread` is linked iff the static library was enabled. |
| `BotanConan.LinuxGccSharedExample` | conanfile.py:103-124 | A shared gcc 9.3 / libstdc++11 build on 64-bit Linux gives the arguments os=linux, cc=gcc, cpu=x86_64, the C++11 ABI flag, min version 9.3, enable-shared, disable-static. Its libraries are `[botan-2, dl, rt]` and its define is `BOTAN_DLL=1`. |
| `Text.Split` | conanfile.py:98 | Python's `str.split` with a one-character separator: at least one piece, and no piece contains the separator. |
| `Text.Join` | conanfile.py:100 | Python's `str.join`: the pieces with one separator between neighbours. Specified by `JoinSplit`, `SplitJoin` and `JoinAppend`. |
| `Text.JoinSplit` | conanfile.py:98-100 | `".".join(v.split("."))` is `v` for every string, so a version with two or more components is unchanged. |
| `Text.SplitJoin` | conanfile.py:98-100 | Splitting the join of separator-free pieces gives the pieces back. |
| `Text.SplitPieceCount` | conanfile.py:98-99 | A split has two or more pieces iff the separator occurs. |
| `Text.JoinAppend` | conanfile.py:99-100 | Joining one more piece appends the separator and that piece, so padding with "0" yields `v + ".0"`. |

## Left out

- `source()` (conanfile.py:18-20) is left out. It clones a git repository over the network.
- `build()` and `_botan_configure` (conanfile.py:22-26, 53-56) are left out. They change the working directory, extend `sys.path`, and import and run the external `configure.py`. The model stops at the argument list that is handed over.
- `_build` (conanfile.py:45-51) is left out. It runs `vcvars && nmake` or `make -j<cpu count>` as a subprocess and reads the host CPU count.
- `package()` (conanfile.py:28-35) is left out. Its pattern-based file copies are done by the package manager's own copy routine, which is not part of this model.
- The class metadata (conanfile.py:7-16) is left out. It holds only constant strings and the default for `shared`.
- test_package/example.cpp is left out. It is a consumer smoke test that calls Botan's hash and hex APIs.
- Settings validation is left out. The package manager restricts each setting to its declared values before the recipe runs. The model accepts any string, and a compiler sub-setting that the framework would not define for a given compiler is simply an unused field.
- `BotanConan.PackageInfo`: the initial contents of the consumer-info object belong to the framework, so the method is stated relative to whatever defines were already there.
