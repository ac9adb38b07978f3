/**
 The script from the build tag to the build command: the early exits, then
 the configure command, then the build command.
 */
module Script {
  import opened Wrappers
  import opened Text
  import opened CMakeArgs
  import opened Toolchain
  import opened Layout
  import opened Configure
  import opened Build
  import opened BuildFacts
  import ConfigureFacts

  /** The two command lines the script hands to its process runner. */
  datatype Commands = Commands(configure: seq<string>, build: seq<string>)

  /**
   Resolves the paths, stopping where the script exits, then assembles the
   configure command and the build command from the same paths.
   */
  method Assemble(t: Entry, f: Flags, ctx: Context) returns (r: Result<Commands, Failure>)
    ensures r.Success? <==> ToolchainFile(t, ctx.pollyRoot) in ctx.files && (f.framework ==> ctx.onDarwin)
    ensures r.Failure? ==> r.error == Resolve(t, f, ctx).error
    ensures r.Success? ==>
              var p := Paths(BuildDir(t, f, ctx.cwd), InstallDir(t, ctx.cwd), ToolchainFile(t, ctx.pollyRoot));
              r.value == Commands(ConfigureLine(t, f, p, ctx.cpackGenerator), BuildLine(t, f, p))
  {
    var resolved := Resolve(t, f, ctx);
    if resolved.Failure? {
      return Failure(resolved.error);
    }
    var p := resolved.value;
    var configure := GenerateCommand(t, f, p, ctx.cpackGenerator);
    var build := BuildCommand(t, f, p);
    r := Success(Commands(configure, build));
  }

  /**
   With the script's own build directory, the separator occurs exactly once
   in the build command, unless the config value is itself `--`.
   */
  lemma SeparatorOnceInScript(t: Entry, f: Flags, cwd: string)
    requires RelativeName(t) && Config(f) != "--"
    ensures forall installDir, toolchainFile ::
              Count(BuildLine(t, f, Paths(BuildDir(t, f, cwd), installDir, toolchainFile)), "--") == 1
  {
    BuildDirUnderBuilds(t, f, cwd);
    assert BuildDir(t, f, cwd) != "--";
    forall installDir, toolchainFile
      ensures Count(BuildLine(t, f, Paths(BuildDir(t, f, cwd), installDir, toolchainFile)), "--") == 1
    {
      SeparatorOnce(t, f, Paths(BuildDir(t, f, cwd), installDir, toolchainFile));
    }
  }

  /**
   A make toolchain that is neither multi-configuration, Xcode nor NMake,
   built as `--config Release --jobs 2` with nothing else: the configure
   command sets the build type and the toolchain file, and the build command
   ends with the separator and `-j 2`.
   */
  lemma ReleaseWithTwoJobs(t: Entry, p: Paths)
    requires t.isMake && !t.multiconfig && !t.isXcode && !t.isNmake
    ensures var f := Flags(Some("Release"), None, false, false, None, false, Some(2));
            var configure, build := ConfigureLine(t, f, p, ""), BuildLine(t, f, p);
            Define("CMAKE_BUILD_TYPE", "Release") in configure
            && Define("CMAKE_TOOLCHAIN_FILE", p.toolchainFile) in configure
            && |build| >= 3 && build[|build| - 3..] == ["--", "-j", "2"]
  {
    var f := Flags(Some("Release"), None, false, false, None, false, Some(2));
    assert Define("CMAKE_BUILD_TYPE", "Release") in ConfigureLine(t, f, p, "") by {
      ConfigureFacts.BuildTypeOption(t, f, p, "");
    }
    assert Define("CMAKE_TOOLCHAIN_FILE", p.toolchainFile) in ConfigureLine(t, f, p, "") by {
      ConfigureFacts.ToolchainFileAlwaysSet(t, f, p, "");
    }
    var build := BuildLine(t, f, p);
    assert build[|build| - 3..] == ["--", "-j", "2"] by {
      MakeJobsTail(t, f, p);
      assert Decimal(2) == "2";
    }
  }
}
