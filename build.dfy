/**
 The CMake build command (`build_command`): `cmake --build <dir>`, the
 config and install-target selectors, the `--` separator, then the arguments
 handed to the native build tool: the simulator architecture and SDK, then
 the job count in the spelling of the tool's family.
 */
module Build {
  import opened Text
  import opened CMakeArgs
  import opened Toolchain
  import opened Layout

  /** `cmake --build <build dir>` */
  function BuildBase(p: Paths): seq<string>
  {
    ["cmake", "--build", p.buildDir]
  }

  /** `--config <config>` when a config is given, `--target install` for a local install. */
  function Selectors(f: Flags): seq<string>
  {
    When(ConfigGiven(f), ["--config", Config(f)]) + When(LocalInstall(f), ["--target", "install"])
  }

  /** What `--iossim` hands to xcodebuild. */
  const SimulatorArgs: seq<string> := ["-arch", "i386", "-sdk", "iphonesimulator"]

  /** Xcode spells the job count `-jobs N`, make `-j N`; NMake and the other tools get none. */
  function JobsArgs(t: Entry, f: Flags): seq<string>
  {
    if !JobsGiven(f) then []
    else if t.isXcode then ["-jobs", Decimal(f.jobs.value)]
    else if t.isMake && !t.isNmake then ["-j", Decimal(f.jobs.value)]
    else []
  }

  /** Everything after the separator. */
  function NativeArgs(t: Entry, f: Flags): seq<string>
  {
    When(f.iossim, SimulatorArgs) + JobsArgs(t, f)
  }

  /** The whole build command. */
  function BuildLine(t: Entry, f: Flags, p: Paths): seq<string>
  {
    BuildBase(p) + Selectors(f) + ["--"] + NativeArgs(t, f)
  }

  /** Builds `build_command` by successive appends. */
  method BuildCommand(t: Entry, f: Flags, p: Paths) returns (cmd: seq<string>)
    ensures cmd == BuildLine(t, f, p)
  {
    cmd := ["cmake", "--build", p.buildDir];
    cmd := AppendSelectors(cmd, f);
    cmd := cmd + ["--"];
    cmd := AppendNative(cmd, t, f);
  }

  /** The config and install-target selectors, each where it applies. */
  method AppendSelectors(cmd: seq<string>, f: Flags) returns (r: seq<string>)
    ensures r == cmd + Selectors(f)
  {
    r := cmd;
    if ConfigGiven(f) {
      r := r + ["--config"];
      r := r + [f.config.value];
    }
    if f.install || f.framework {
      r := r + ["--target"];
      r := r + ["install"];
    }
  }

  /** The simulator arguments, then the job count for Xcode or for make. */
  method AppendNative(cmd: seq<string>, t: Entry, f: Flags) returns (r: seq<string>)
    ensures r == cmd + NativeArgs(t, f)
  {
    r := cmd;
    if f.iossim {
      r := r + ["-arch"];
      r := r + ["i386"];
      r := r + ["-sdk"];
      r := r + ["iphonesimulator"];
    }
    assert r == cmd + When(f.iossim, SimulatorArgs);
    ghost var afterSimulator := r;
    if JobsGiven(f) {
      if t.isXcode {
        r := r + ["-jobs"];
        r := r + [Decimal(f.jobs.value)];
      } else if t.isMake && !t.isNmake {
        r := r + ["-j"];
        r := r + [Decimal(f.jobs.value)];
      }
    }
    assert r == afterSimulator + JobsArgs(t, f);
  }
}
