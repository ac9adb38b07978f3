/**
 The inputs of command assembly: the selected toolchain-table entry, the
 parsed command-line flags, and what the script learns from its surroundings.
 */
module Toolchain {
  import opened Wrappers

  /** The fields of a toolchain-table entry that command assembly reads. */
  datatype Entry = Entry(
    name: string,
    generator: string,    // "" when the toolchain leaves the generator to CMake
    multiconfig: bool,
    xp: bool,
    vsVersion: string,    // "" for toolchains that are not Visual Studio ones
    isXcode: bool,
    isMake: bool,
    isNmake: bool)

  /** The parsed flags; `None` is an option that was not given. */
  datatype Flags = Flags(
    config: Option<string>,
    home: Option<string>,
    install: bool,
    framework: bool,
    fwd: Option<seq<string>>,
    iossim: bool,
    jobs: Option<int>)

  /**
   The surroundings: the resolved polly root and working directory, the CPack
   generator already chosen for `--pack` ("" for none), whether the host is
   Darwin, and the set of paths that exist on disk.
   */
  datatype Context = Context(
    pollyRoot: string,
    cwd: string,
    cpackGenerator: string,
    onDarwin: bool,
    files: set<string>)

  /** Python truthiness of an optional string: given and non-empty. */
  predicate Truthy(s: Option<string>)
  {
    s.Some? && s.value != ""
  }

  /** `if args.config` */
  predicate ConfigGiven(f: Flags)
  {
    Truthy(f.config)
  }

  /** The `--config` value, "" when absent. */
  function Config(f: Flags): string
  {
    if f.config.Some? then f.config.value else ""
  }

  /** `if args.jobs`: an integer is truthy when it is not zero. */
  predicate JobsGiven(f: Flags)
  {
    f.jobs.Some? && f.jobs.value != 0
  }

  /** `local_install = args.install or args.framework` */
  predicate LocalInstall(f: Flags)
  {
    f.install || f.framework
  }

  /** The project home: `--home` when given, "." otherwise. */
  function Home(f: Flags): string
  {
    if Truthy(f.home) then f.home.value else "."
  }

  /** The `--fwd` items, none when the flag is absent. */
  function Forwarded(f: Flags): seq<string>
  {
    if f.fwd.Some? then f.fwd.value else []
  }

  /** Names in the toolchain table are relative file names, never absolute paths. */
  predicate RelativeName(t: Entry)
  {
    !(|t.name| > 0 && t.name[0] == '/')
  }
}
