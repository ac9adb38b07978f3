# Polly build driver: command-line assembly

`bin/build.py` drives CMake for one of many cross-compilation toolchains. After
argument parsing, toolchain lookup and environment set-up, the script derives a
build tag and a few paths, and assembles two argument lists:

- the configure command (`generate_command`): `cmake -H<home> -B<build dir>`,
  then options guarded by the toolchain entry and the flags, the toolchain file,
  three diagnostic switches, the install prefix, the CPack generator and every
  `--fwd` item as `-D<item>`;
- the build command (`build_command`): `cmake --build <build dir>`, the
  `--config` and `--target install` selectors, the `--` separator, and after it
  the arguments for the native tool (the iOS simulator architecture and SDK,
  then the job count spelled `-jobs N` for Xcode or `-j N` for make).

This project models that assembly in Dafny and proves what the script's users
rely on.

Files and modules:

- `wrappers.dfy` (`Wrappers`): `Option` and `Result`.
- `text.dfy` (`Text`): prefixes, `posixpath.join` with two arguments, and the
  decimal rendering of an integer by `'{}'.format(n)` with its parse back.
- `toolchain.dfy` (`Toolchain`): the toolchain-table fields that assembly reads
  (`Entry`), the parsed flags (`Flags`), and the surroundings (`Context`):
  polly root, working directory, resolved CPack generator, host OS and the
  set of files that exist. It also defines Python truthiness: a string flag
  is given when it is present and non-empty, and `--jobs` when it is present
  and not 0 (negative counts count as given).
- `layout.dfy` (`Layout`): build tag, build, install and toolchain-file paths,
  and the two exits before assembly (`Resolve`).
- `cmake_args.dfy` (`CMakeArgs`): cache definitions `-D<name>=<value>`,
  one-letter switches, and counting over a command line.
- `configure.dfy` (`Configure`): the configure command. It has a specification
  function `ConfigureLine` and a method `GenerateCommand` that builds it by
  guarded appends and a loop over the `--fwd` items.
- `configure_facts.dfy` (`ConfigureFacts`): properties of the configure command.
- `build.dfy` (`Build`): the build command. It has a specification function
  `BuildLine` and a method `BuildCommand` that builds it by guarded appends.
- `build_facts.dfy` (`BuildFacts`): properties of the build command.
- `script.dfy` (`Script`): the two exits followed by both commands, and an
  end-to-end scenario.

Notes on the model:

- The toolset option is one argument, `-Tv<vs_version>0_xp`, as
  `bin/build.py:219-221` appends it. It is not a `-T` followed by a separate value.
- The CPack option depends on the CPack generator string that `--pack` has
  already resolved to. It is present when that string is non-empty, not
  whenever `--pack` is given.
- A `--fwd` item is forwarded verbatim, so it can define `CMAKE_BUILD_TYPE` or
  any other entry again. The counting lemmas therefore state "the script's own
  definitions plus the forwarded ones". They count only the untyped form
  `-D<name>=<value>`: a forwarded item in CMake's typed form, such as
  `CMAKE_BUILD_TYPE:STRING=Debug`, also sets the entry but is not counted.
- The separator `--` occurs once in the build command unless `--config --` is
  given: the config value is appended as a word of its own.
  `SeparatorOnce` states this condition. The script's own build directory always
  contains `_builds`, so it is never `--` (`Script.SeparatorOnceInScript`).
- Paths follow `posixpath.join` (Windows joining is left out, see below): an absolute component replaces what comes
  before it. Toolchain names are relative file names (`RelativeName`).

## Model

| member | source | states |
|---|---|---|
| `Layout.BuildTagShape` | bin/build.py:112-116 | the tag starts with the toolchain name; it is the bare name exactly when no config is given or the generator is multi-configuration, and otherwise the name, `-` and the config |
| `Layout.BuildDirUnderBuilds` | bin/build.py:158 | the build directory starts with `<cwd>/_builds` and ends with the build tag |
| `Layout.ConfigsGetOwnBuildDirs` | bin/build.py:113-116 | with a single-configuration generator, two different configs never get the same build-directory path (compared as strings) |
| `Layout.ConfigSeparatesFromBare` | bin/build.py:113-116 | with a single-configuration generator, a build with a config and a build without one get different build-directory paths (compared as strings) |
| `Layout.MulticonfigSharesBuildDir` | bin/build.py:113-116 | a multi-configuration generator uses `<cwd>/_builds/<toolchain>` whatever the config |
| `Layout.Resolve` | bin/build.py:153-169 | succeeds exactly when the toolchain file exists and `--framework` is not requested off Darwin; a missing toolchain file is reported first, the framework error second; on success it gives the build, install and toolchain-file paths |
| `Configure.GenerateCommand` | bin/build.py:200-238 | builds exactly `ConfigureLine`: base, guarded options, fixed options, install prefix and CPack generator, forwarded items, in that order |
| `Configure.AppendGuarded` | bin/build.py:210-221 | appends the parallel hint, build type, generator and toolset, each only where its guard holds, in that order |
| `Configure.AppendFixed` | bin/build.py:223-228 | appends the toolchain-file option (its guard always holds) and the three diagnostic switches |
| `Configure.AppendPackaging` | bin/build.py:230-234 | appends the install prefix for `--install` or `--framework`, then the CPack generator when one was resolved |
| `Configure.AppendForwarded` | bin/build.py:236-238 | appends `-D<item>` for each forwarded item; the loop invariant keeps the prefix built so far |
| `ConfigureFacts.ConfigureStartsWithBase` | bin/build.py:200-208 | the command starts `cmake`, `-H<home>` with home defaulting to `.` when `--home` is absent or empty, `-B<build dir>` |
| `ConfigureFacts.ForwardDefinesAt` | bin/build.py:237-238 | one `-D<item>` per forwarded item, at the item's own position |
| `ConfigureFacts.ForwardedLast` | bin/build.py:236-238 | the forwarded definitions form the end of the command, in the given order |
| `ConfigureFacts.ToolchainFileAlwaysSet` | bin/build.py:223-224 | the toolchain-file option is always present, at index 3 plus the number of guarded options that apply |
| `ConfigureFacts.PackagingAt` | bin/build.py:226-238 | after the toolchain file come `-DCMAKE_VERBOSE_MAKEFILE=ON`, `-DPOLLY_STATUS_DEBUG=ON`, `-DHUNTER_STATUS_DEBUG=ON` at fixed indices, then `-DCMAKE_INSTALL_PREFIX=<install dir>` for a local install, then `-DCPACK_GENERATOR=<generator>` when one was resolved, then exactly the forwarded definitions |
| `ConfigureFacts.GuardedAt` | bin/build.py:210-221 | each guarded option whose guard holds sits at index 3 plus the number of earlier guarded options that apply |
| `ConfigureFacts.ConfigureDefinitions` | bin/build.py:210-238 | every cache entry is defined as often as the script's rules say (0 or 1 per entry, by guard), plus once per forwarded item that assigns it |
| `ConfigureFacts.BuildTypeOption` | bin/build.py:213-214 | `-DCMAKE_BUILD_TYPE=<config>` is present, once apart from forwarded items, exactly when a config is given and the generator is single-configuration |
| `ConfigureFacts.ParallelOption` | bin/build.py:210-211 | `-DPOLLY_PARALLEL=YES` is present, once apart from forwarded items, exactly when the toolchain has a Visual Studio version and jobs are given |
| `ConfigureFacts.ConfigureSwitches` | bin/build.py:216-221 | apart from `-D`, `-H`, `-B`, the only switches are `-G`, once exactly when the generator is non-empty, and `-T`, once exactly when the toolchain is XP |
| `ConfigureFacts.GeneratorAndToolsetValues` | bin/build.py:216-221 | the generator switch carries the toolchain's generator and the toolset switch `v<vs_version>0_xp` |
| `Build.BuildCommand` | bin/build.py:244-273 | builds exactly `BuildLine`: base, selectors, separator, native arguments |
| `Build.AppendSelectors` | bin/build.py:250-256 | appends `--config <config>` when a config is given, then `--target install` for a local install |
| `Build.AppendNative` | bin/build.py:261-273 | appends the simulator arguments for `--iossim`, then the job count in Xcode or make spelling |
| `BuildFacts.BuildShape` | bin/build.py:244-259 | the command is `cmake --build <dir>`, the selectors that apply, `--` at the index they determine, then only the native tool's arguments |
| `BuildFacts.BuildCount` | bin/build.py:244-259 | any word other than the fixed ones, the directory, the config value and the native arguments occurs once per selector or separator that adds it |
| `BuildFacts.NativeArgsHaveNoSeparator` | bin/build.py:258-273 | nothing after the separator is itself `--` |
| `BuildFacts.SeparatorOnce` | bin/build.py:258-259 | `--` occurs exactly once when neither the config value nor the build directory is `--` |
| `BuildFacts.InstallTargetOnce` | bin/build.py:254-256 | when neither the config value nor the build directory is itself `--target`, `--target` occurs once exactly for `--install` or `--framework`, otherwise never |
| `BuildFacts.ConfigSelectorOnce` | bin/build.py:250-252 | when neither the config value nor the build directory is itself `--config`, `--config` occurs once exactly when a config is given, otherwise never |
| `BuildFacts.SimulatorArgsFirst` | bin/build.py:261-265 | with `--iossim` the native arguments start with exactly `-arch i386 -sdk iphonesimulator`, before any job count; without it none of these words appear |
| `BuildFacts.JobsSpelling` | bin/build.py:267-273 | `-jobs` appears exactly for an Xcode toolchain with jobs given, `-j` exactly for a make, non-NMake, non-Xcode toolchain with jobs given; never both; in every other case (NMake, neither family, no job count) nothing is appended after the simulator arguments, and the native arguments are four words for `--iossim` plus two for a job count |
| `BuildFacts.JobsValue` | bin/build.py:267-273 | the value after the jobs flag is a decimal string that reads back as the given job count; the two end the native arguments |
| `BuildFacts.MakeJobsTail` | bin/build.py:258-273 | without `--iossim`, a make toolchain that is neither NMake nor Xcode ends the build command with `-- -j N` for the given job count |
| `Text.DecimalRoundTrip` | bin/build.py:270 | `int('{}'.format(n)) == n` for every integer job count |
| `Script.Assemble` | bin/build.py:153-273 | of the exits the model keeps, fails exactly on a missing toolchain file or a framework request off Darwin, with that error (for example the MinGW, MSYS and NMake set-up exits, the `--clear` exits, the failing `where`/`which cmake` and `cmake --version` calls and a failing configure run are not modelled, see below); otherwise returns the configure and build commands built from the same resolved paths |
| `Script.SeparatorOnceInScript` | bin/build.py:258-259 | with the script's own build directory, `--` occurs exactly once unless the config value is `--` |
| `Script.ReleaseWithTwoJobs` | bin/build.py:200-273 | a single-configuration make toolchain that is neither NMake nor Xcode, with `--config Release --jobs 2`: the configure command sets the build type and the toolchain file, and the build command ends `-- -j 2` |

## Left out

- Argument parsing (`bin/build.py:33-103`) is not modelled: the parsed flags are the input record `Flags`.
- Toolchain lookup and CPack resolution (`detail.toolchain_name`, `detail.toolchain_table`, `detail.cpack_generator`) are not part of this model. Their results are inputs: the `Entry` and `Context.cpackGenerator`. The toolchain name used in paths is the entry's name.
- Environment changes for MinGW, MSYS, NMake, iOS/OS X developer roots and code signing (`bin/build.py:118-149`) are not modelled: they change process-wide state through helpers that are not part of this model. Those helpers can also stop the script (`bin/build.py:121`, `126`, `130`) before either command is built. `Script.Assemble` does not model those exits.
- `realpath`/`getcwd` are not modelled: the polly root and working directory are opaque input strings.
- Checking whether the toolchain file exists is a set-membership test on `Context.files`. Checking for Darwin is the boolean `Context.onDarwin`.
- The `--clear` removal, creating the temporary directory, the logging set-up and the framework directory (`bin/build.py:169-191`) are not modelled: they are filesystem side effects that do not change either command. They can stop the script before the configure command is built, though: the checks at `bin/build.py:181-186` exit when a directory survives removal, and `shutil.rmtree` (174, 177, 180), `os.makedirs` (190) and the logging constructor (191) can raise. `Script.Assemble` does not model these exits, so its "fails exactly" covers only the two exits `Resolve` models.
- Running the commands, logging, framework creation, tests, packing and opening the project (`bin/build.py:191-198`, `240-242`, `275-297`) are not modelled: they are subprocess calls to external tools. Some of these calls are also exits: the `where`/`which cmake` and `cmake --version` calls (`bin/build.py:195-198`) stop the script before either command is built when they fail, and the configure run (`bin/build.py:240-242`) must succeed before the build command is assembled. `Script.Assemble` returns both commands without modelling these exits.
- `Toolchain.Entry.vsVersion` is a string, with `""` for "no Visual Studio version". `bin/build.py:220` formats whatever value the toolchain table holds, and the table is not part of this model. The model assumes that every XP entry of the table carries a Visual Studio version string.
- Paths are joined the POSIX way (`/` as separator, an absolute component restarts the path). On Windows, where the Visual Studio, MinGW, MSYS and NMake toolchains run, `os.path.join` is `ntpath.join`: it joins with `\` and restarts at a drive letter. So the `-B`, `-DCMAKE_TOOLCHAIN_FILE` and `-DCMAKE_INSTALL_PREFIX` values the model computes are not the ones produced on Windows.
- Paths are compared as strings, with no normalisation (`Release/`, `x/../t`) and no case folding. Two build-directory paths the model proves different can therefore name the same directory on disk, for example `Release` and `release` on a case-insensitive file system.
