/**
 The build tag and the directories and files derived from it, and the two
 checks that stop the script before any command is assembled.
 */
module Layout {
  import opened Wrappers
  import opened Text
  import opened Toolchain

  /** `<toolchain>-<config>` for a single-configuration generator given a config, else `<toolchain>`. */
  function BuildTag(t: Entry, f: Flags): string
  {
    if ConfigGiven(f) && !t.multiconfig then t.name + "-" + Config(f) else t.name
  }

  /** `<cwd>/_builds/<tag>` */
  function BuildDir(t: Entry, f: Flags, cwd: string): string
  {
    Join(Join(cwd, "_builds"), BuildTag(t, f))
  }

  /** `<cwd>/_install/<toolchain>` */
  function InstallDir(t: Entry, cwd: string): string
  {
    Join(Join(cwd, "_install"), t.name)
  }

  /** `<polly root>/<toolchain>.cmake` */
  function ToolchainFile(t: Entry, pollyRoot: string): string
  {
    Join(pollyRoot, t.name + ".cmake")
  }

  datatype Paths = Paths(buildDir: string, installDir: string, toolchainFile: string)

  /** Why the script exits before assembling any command. */
  datatype Failure =
    | ToolchainFileNotFound(path: string)
    | FrameworkOnlyOnMacOS

  /**
   The paths the commands use, or the first of the two early exits: a missing
   toolchain file, then `--framework` on a host that is not Darwin.
   */
  function Resolve(t: Entry, f: Flags, ctx: Context): (r: Result<Paths, Failure>)
    ensures r.Success? <==> ToolchainFile(t, ctx.pollyRoot) in ctx.files && (f.framework ==> ctx.onDarwin)
    ensures ToolchainFile(t, ctx.pollyRoot) !in ctx.files ==>
              r == Failure(ToolchainFileNotFound(ToolchainFile(t, ctx.pollyRoot)))
    ensures ToolchainFile(t, ctx.pollyRoot) in ctx.files && f.framework && !ctx.onDarwin ==>
              r == Failure(FrameworkOnlyOnMacOS)
    ensures r.Success? ==> r.value == Paths(BuildDir(t, f, ctx.cwd), InstallDir(t, ctx.cwd),
                                            ToolchainFile(t, ctx.pollyRoot))
  {
    var toolchainPath := ToolchainFile(t, ctx.pollyRoot);
    if toolchainPath !in ctx.files then Failure(ToolchainFileNotFound(toolchainPath))
    else if f.framework && !ctx.onDarwin then Failure(FrameworkOnlyOnMacOS)
    else Success(Paths(BuildDir(t, f, ctx.cwd), InstallDir(t, ctx.cwd), toolchainPath))
  }

  /**
   The tag starts with the toolchain name; it is the bare name exactly when no
   config is given or the generator is multi-configuration, and otherwise the
   name, a '-' and the config.
   */
  lemma BuildTagShape(t: Entry, f: Flags)
    ensures HasPrefix(BuildTag(t, f), t.name)
    ensures BuildTag(t, f) == t.name <==> !(ConfigGiven(f) && !t.multiconfig)
    ensures ConfigGiven(f) && !t.multiconfig ==>
              BuildTag(t, f)[|t.name|] == '-' && BuildTag(t, f)[|t.name| + 1..] == Config(f)
  {
    var tag := BuildTag(t, f);
    if ConfigGiven(f) && !t.multiconfig {
      assert tag == t.name + ("-" + Config(f));
      PrefixOfConcat(t.name, "-" + Config(f));
      assert |tag| > |t.name|;
    } else {
      PrefixOfConcat(t.name, "");
      assert t.name + "" == t.name;
    }
  }

  lemma TagIsRelative(t: Entry, f: Flags)
    requires RelativeName(t)
    ensures !StartsWithSlash(BuildTag(t, f))
  {
    BuildTagShape(t, f);
    if |t.name| == 0 && ConfigGiven(f) && !t.multiconfig {
      assert BuildTag(t, f)[0] == '-';
    }
  }

  /** The build directory lies under `<cwd>/_builds` and ends with the tag. */
  lemma BuildDirUnderBuilds(t: Entry, f: Flags, cwd: string)
    requires RelativeName(t)
    ensures HasPrefix(BuildDir(t, f, cwd), Join(cwd, "_builds"))
    ensures var d := BuildDir(t, f, cwd); var tag := BuildTag(t, f);
            |tag| <= |d| && d[|d| - |tag|..] == tag
    ensures '_' in BuildDir(t, f, cwd)
  {
    TagIsRelative(t, f);
    var builds := Join(cwd, "_builds");
    assert "_builds"[0] == '_';
    assert builds[|builds| - 7..][0] == '_';
    JoinKeeps(builds, BuildTag(t, f), '_');
  }

  /** With a single-configuration generator, two different given configs never get the same build-directory path (as strings). */
  lemma ConfigsGetOwnBuildDirs(t: Entry, f1: Flags, f2: Flags, cwd: string)
    requires RelativeName(t) && !t.multiconfig
    requires ConfigGiven(f1) && ConfigGiven(f2) && Config(f1) != Config(f2)
    ensures BuildDir(t, f1, cwd) != BuildDir(t, f2, cwd)
  {
    TagIsRelative(t, f1);
    TagIsRelative(t, f2);
    BuildTagShape(t, f1);
    BuildTagShape(t, f2);
    var tag1, tag2 := BuildTag(t, f1), BuildTag(t, f2);
    if BuildDir(t, f1, cwd) == BuildDir(t, f2, cwd) {
      JoinInjective(Join(cwd, "_builds"), tag1, tag2);
    }
  }

  /** The build-directory path with a config differs, as a string, from the one without. */
  lemma ConfigSeparatesFromBare(t: Entry, f1: Flags, f2: Flags, cwd: string)
    requires RelativeName(t) && !t.multiconfig
    requires ConfigGiven(f1) && !ConfigGiven(f2)
    ensures BuildDir(t, f1, cwd) != BuildDir(t, f2, cwd)
  {
    TagIsRelative(t, f1);
    TagIsRelative(t, f2);
    if BuildDir(t, f1, cwd) == BuildDir(t, f2, cwd) {
      JoinInjective(Join(cwd, "_builds"), BuildTag(t, f1), BuildTag(t, f2));
    }
  }

  /** A multi-configuration generator builds every config in one directory. */
  lemma MulticonfigSharesBuildDir(t: Entry, f1: Flags, f2: Flags, cwd: string)
    requires t.multiconfig
    ensures BuildDir(t, f1, cwd) == BuildDir(t, f2, cwd) == Join(Join(cwd, "_builds"), t.name)
  {
  }
}
