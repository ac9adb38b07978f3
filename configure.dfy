/**
 The CMake configure command (`generate_command`): the base invocation, the
 options guarded by the toolchain and the flags, the options that are always
 there, the install prefix and CPack generator, then every `--fwd` item.
 Each run of appends is one segment; the command is the segments in order.
 */
module Configure {
  import opened CMakeArgs
  import opened Toolchain
  import opened Layout

  /** `toolchain_entry.vs_version and args.jobs`: ask the project to build its parts in parallel. */
  predicate ParallelHint(t: Entry, f: Flags)
  {
    t.vsVersion != "" && JobsGiven(f)
  }

  /** The build type is fixed at configure time only for single-configuration generators. */
  predicate BuildTypeApplies(t: Entry, f: Flags)
  {
    ConfigGiven(f) && !t.multiconfig
  }

  /** `'v{}0_xp'.format(vs_version)` */
  function Toolset(t: Entry): string
  {
    "v" + t.vsVersion + "0_xp"
  }

  /** `cmake -H<home> -B<build dir>` */
  function ConfigureBase(f: Flags, p: Paths): seq<string>
  {
    ["cmake", "-H" + Home(f), "-B" + p.buildDir]
  }

  /** The parallel hint, build type, generator and toolset, each where it applies. */
  function GuardedOptions(t: Entry, f: Flags): seq<string>
  {
    When(ParallelHint(t, f), [Define("POLLY_PARALLEL", "YES")])
      + When(BuildTypeApplies(t, f), [Define("CMAKE_BUILD_TYPE", Config(f))])
      + When(t.generator != "", ["-G" + t.generator])
      + When(t.xp, ["-T" + Toolset(t)])
  }

  /** The toolchain file and the three diagnostic switches. */
  function FixedOptions(p: Paths): seq<string>
  {
    [Define("CMAKE_TOOLCHAIN_FILE", p.toolchainFile),
     Define("CMAKE_VERBOSE_MAKEFILE", "ON"),
     Define("POLLY_STATUS_DEBUG", "ON"),
     Define("HUNTER_STATUS_DEBUG", "ON")]
  }

  /** The install prefix for a local install, the CPack generator when one was chosen. */
  function PackagingOptions(f: Flags, p: Paths, cpack: string): seq<string>
  {
    When(LocalInstall(f), [Define("CMAKE_INSTALL_PREFIX", p.installDir)])
      + When(cpack != "", [Define("CPACK_GENERATOR", cpack)])
  }

  /** `-D<item>` for each `--fwd` item, in the given order. */
  function ForwardDefines(items: seq<string>): seq<string>
  {
    if items == [] then [] else ForwardDefines(items[..|items| - 1]) + ["-D" + items[|items| - 1]]
  }

  /** The whole configure command. */
  function ConfigureLine(t: Entry, f: Flags, p: Paths, cpack: string): seq<string>
  {
    ConfigureBase(f, p) + GuardedOptions(t, f) + FixedOptions(p)
      + PackagingOptions(f, p, cpack) + ForwardDefines(Forwarded(f))
  }

  /** Builds `generate_command` by successive appends, one run of them per segment. */
  method GenerateCommand(t: Entry, f: Flags, p: Paths, cpackGenerator: string) returns (cmd: seq<string>)
    ensures cmd == ConfigureLine(t, f, p, cpackGenerator)
  {
    var home := ".";
    if Truthy(f.home) {
      home := f.home.value;
    }
    cmd := ["cmake", "-H" + home, "-B" + p.buildDir];
    cmd := AppendGuarded(cmd, t, f);
    cmd := AppendFixed(cmd, p);
    cmd := AppendPackaging(cmd, f, p, cpackGenerator);
    if f.fwd.Some? {
      cmd := AppendForwarded(cmd, f.fwd.value);
    } else {
      assert cmd + ForwardDefines([]) == cmd;
    }
  }

  /** The four guarded appends, in the script's order. */
  method AppendGuarded(cmd: seq<string>, t: Entry, f: Flags) returns (r: seq<string>)
    ensures r == cmd + GuardedOptions(t, f)
  {
    r := cmd;
    if ParallelHint(t, f) {
      r := r + [Define("POLLY_PARALLEL", "YES")];
    }
    if BuildTypeApplies(t, f) {
      r := r + [Define("CMAKE_BUILD_TYPE", f.config.value)];
    }
    if t.generator != "" {
      r := r + ["-G" + t.generator];
    }
    if t.xp {
      var toolset := "v" + t.vsVersion + "0_xp";
      r := r + ["-T" + toolset];
    }
  }

  /** The toolchain option (its guard always holds) and the three diagnostic switches. */
  method AppendFixed(cmd: seq<string>, p: Paths) returns (r: seq<string>)
    ensures r == cmd + FixedOptions(p)
  {
    r := cmd;
    var toolchainOption := Define("CMAKE_TOOLCHAIN_FILE", p.toolchainFile);
    assert toolchainOption[0] == '-';
    if toolchainOption != "" {
      r := r + [toolchainOption];
    }
    r := r + [Define("CMAKE_VERBOSE_MAKEFILE", "ON")];
    r := r + [Define("POLLY_STATUS_DEBUG", "ON")];
    r := r + [Define("HUNTER_STATUS_DEBUG", "ON")];
  }

  /** The install prefix and the CPack generator, each where it applies. */
  method AppendPackaging(cmd: seq<string>, f: Flags, p: Paths, cpackGenerator: string) returns (r: seq<string>)
    ensures r == cmd + PackagingOptions(f, p, cpackGenerator)
  {
    r := cmd;
    if f.install || f.framework {
      r := r + [Define("CMAKE_INSTALL_PREFIX", p.installDir)];
    }
    if cpackGenerator != "" {
      r := r + [Define("CPACK_GENERATOR", cpackGenerator)];
    }
  }

  /** `-D<item>` appended for each forwarded item, in order. */
  method AppendForwarded(cmd: seq<string>, items: seq<string>) returns (r: seq<string>)
    ensures r == cmd + ForwardDefines(items)
  {
    r := cmd;
    for i := 0 to |items|
      invariant r == cmd + ForwardDefines(items[..i])
    {
      assert items[..i + 1][..i] == items[..i];
      r := r + ["-D" + items[i]];
    }
    assert items[..|items|] == items;
  }
}
