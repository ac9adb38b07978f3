/**
 What the build command promises: how it starts, where the separator sits
 and that it occurs once, what follows it, and which spelling of the job
 count the native tool receives.
 */
module BuildFacts {
  import opened Text
  import opened CMakeArgs
  import opened Toolchain
  import opened Layout
  import opened Build

  /** Index of the separator: after the base and the selectors that apply. */
  function SeparatorIndex(f: Flags): nat
  {
    3 + 2 * Indicator(ConfigGiven(f)) + 2 * Indicator(LocalInstall(f))
  }

  /**
   The command is `cmake --build <dir>`, then `--config <config>` when a config
   is given, then `--target install` for a local install, then `--`, and after
   the separator nothing but the native tool's arguments.
   */
  lemma BuildShape(t: Entry, f: Flags, p: Paths)
    ensures var cmd, k := BuildLine(t, f, p), SeparatorIndex(f);
            k < |cmd| && cmd[..3] == ["cmake", "--build", p.buildDir]
            && (ConfigGiven(f) ==> cmd[3] == "--config" && cmd[4] == f.config.value)
            && (LocalInstall(f) ==> cmd[k - 2] == "--target" && cmd[k - 1] == "install")
            && cmd[k] == "--" && cmd[k + 1..] == NativeArgs(t, f)
  {
    var cmd := BuildLine(t, f, p);
    var front := BuildBase(p) + Selectors(f);
    assert |front| == SeparatorIndex(f);
    assert cmd == front + ["--"] + NativeArgs(t, f);
    assert cmd[..3] == front[..3] == BuildBase(p);
    assert cmd[..|front|] == front;
    assert cmd[|front| + 1..] == NativeArgs(t, f);
  }

  /** A decimal rendering starts with '-' or a digit and ends with a digit. */
  lemma DecimalEnds(n: int)
    ensures var s := Decimal(n); |s| >= 1 && IsDigit(s[|s| - 1]) && (s[0] == '-' || IsDigit(s[0]))
  {
    var s := Decimal(n);
    var m := Magnitude(s);
    assert s[|s| - 1] == m[|m| - 1];
    if s[0] != '-' {
      assert m == s;
    }
  }

  /** The job-count value is never one of the words the command line uses for itself. */
  lemma DecimalIsNoKeyword(n: int)
    ensures Decimal(n) !in ["--", "-j", "-jobs", "-arch", "-sdk", "i386", "iphonesimulator"]
  {
    DecimalEnds(n);
    var s := Decimal(n);
    assert s != "--" && s != "-j" && s != "-jobs" && s != "-arch" && s != "-sdk" by {
      assert !IsDigit('-') && !IsDigit('j') && !IsDigit('s') && !IsDigit('h') && !IsDigit('k');
    }
    assert s != "i386" && s != "iphonesimulator" by {
      assert !IsDigit('i');
    }
  }

  /** The native tool's arguments never contain the separator. */
  lemma NativeArgsHaveNoSeparator(t: Entry, f: Flags)
    ensures "--" !in NativeArgs(t, f)
  {
    if JobsGiven(f) {
      DecimalIsNoKeyword(f.jobs.value);
    }
  }

  /**
   `-jobs` reaches the native tool exactly when jobs are given to an Xcode
   toolchain, `-j` exactly when they are given to a make toolchain that is not
   NMake and not Xcode; so the two spellings never occur together. When
   neither applies, nothing follows the simulator arguments: the native
   arguments are four words per `--iossim` plus two for a job count.
   */
  lemma JobsSpelling(t: Entry, f: Flags)
    ensures "-jobs" in NativeArgs(t, f) <==> JobsGiven(f) && t.isXcode
    ensures "-j" in NativeArgs(t, f) <==> JobsGiven(f) && !t.isXcode && t.isMake && !t.isNmake
    ensures !("-jobs" in NativeArgs(t, f) && "-j" in NativeArgs(t, f))
    ensures |NativeArgs(t, f)|
            == 4 * Indicator(f.iossim) + 2 * Indicator(JobsGiven(f) && (t.isXcode || (t.isMake && !t.isNmake)))
    ensures !(JobsGiven(f) && (t.isXcode || (t.isMake && !t.isNmake))) ==> NativeArgs(t, f) == When(f.iossim, SimulatorArgs)
  {
    if JobsGiven(f) {
      DecimalIsNoKeyword(f.jobs.value);
    }
  }

  /**
   With a job count for Xcode or for make, the tail ends with the flag and
   the count written in decimal, which reads back as the given count.
   */
  lemma JobsValue(t: Entry, f: Flags)
    requires JobsGiven(f) && (t.isXcode || (t.isMake && !t.isNmake))
    ensures var tail := NativeArgs(t, f);
            |tail| >= 2 && tail[|tail| - 2] == (if t.isXcode then "-jobs" else "-j")
            && IsDecimal(tail[|tail| - 1]) && ParseInt(tail[|tail| - 1]) == f.jobs.value
  {
    DecimalRoundTrip(f.jobs.value);
  }

  /**
   Without `--iossim`, a make toolchain that is not NMake or Xcode ends the
   build command with the separator and `-j N`.
   */
  lemma MakeJobsTail(t: Entry, f: Flags, p: Paths)
    requires JobsGiven(f) && !f.iossim && t.isMake && !t.isNmake && !t.isXcode
    ensures var cmd := BuildLine(t, f, p);
            |cmd| >= 3 && cmd[|cmd| - 3..] == ["--", "-j", Decimal(f.jobs.value)]
  {
    var cmd := BuildLine(t, f, p);
    BuildShape(t, f, p);
    assert NativeArgs(t, f) == ["-j", Decimal(f.jobs.value)];
    assert SeparatorIndex(f) == |cmd| - 3;
  }

  /**
   `--iossim` puts exactly `-arch i386 -sdk iphonesimulator` first after the
   separator, before any job count; without it none of these appear.
   */
  lemma SimulatorArgsFirst(t: Entry, f: Flags)
    ensures f.iossim ==> NativeArgs(t, f)[..4] == SimulatorArgs && NativeArgs(t, f)[4..] == JobsArgs(t, f)
    ensures !f.iossim ==> NativeArgs(t, f) == JobsArgs(t, f)
    ensures !f.iossim ==> forall a :: a in SimulatorArgs ==> a !in NativeArgs(t, f)
  {
    if JobsGiven(f) {
      DecimalIsNoKeyword(f.jobs.value);
    }
    if f.iossim {
      assert NativeArgs(t, f) == SimulatorArgs + JobsArgs(t, f);
    } else {
      assert NativeArgs(t, f) == [] + JobsArgs(t, f);
    }
  }

  lemma CountOne(a: string, x: string)
    ensures Count([a], x) == Indicator(a == x)
  {
    CountSingle(a, "", 'D', x);
  }

  lemma CountPair(a: string, b: string, x: string)
    ensures Count([a, b], x) == Indicator(a == x) + Indicator(b == x)
  {
    assert [a, b] == [a] + [b];
    CountConcat([a], [b], x);
    CountOne(a, x);
    CountOne(b, x);
  }

  /**
   Every word of the build command that is not the build directory, the
   config value, a fixed word of the base, or a native argument occurs once
   for each selector or separator that puts it there.
   */
  lemma BuildCount(t: Entry, f: Flags, p: Paths, x: string)
    requires x != "cmake" && x != "--build" && x != "install" && x != p.buildDir && x != Config(f)
    requires x !in NativeArgs(t, f)
    ensures Count(BuildLine(t, f, p), x)
            == Indicator(ConfigGiven(f) && x == "--config") + Indicator(LocalInstall(f) && x == "--target")
               + Indicator(x == "--")
  {
    var base, sel, native := BuildBase(p), Selectors(f), NativeArgs(t, f);
    var w1 := When(ConfigGiven(f), ["--config", Config(f)]);
    var w2 := When(LocalInstall(f), ["--target", "install"]);
    assert base == ["cmake", "--build"] + [p.buildDir];
    CountConcat(["cmake", "--build"], [p.buildDir], x);
    CountPair("cmake", "--build", x);
    CountOne(p.buildDir, x);
    CountConcat(w1, w2, x);
    CountPair("--config", Config(f), x);
    CountPair("--target", "install", x);
    CountConcat(base, sel, x);
    CountConcat(base + sel, ["--"], x);
    CountOne("--", x);
    CountConcat(base + sel + ["--"], native, x);
    CountPositive(native, x);
  }

  /**
   The separator occurs exactly once, provided the config value and the build
   directory are not themselves `--`.
   */
  lemma SeparatorOnce(t: Entry, f: Flags, p: Paths)
    requires Config(f) != "--" && p.buildDir != "--"
    ensures Count(BuildLine(t, f, p), "--") == 1
  {
    NativeArgsHaveNoSeparator(t, f);
    BuildCount(t, f, p, "--");
  }

  /** `--target install` is requested once exactly for a local install (`--install` or `--framework`). */
  lemma InstallTargetOnce(t: Entry, f: Flags, p: Paths)
    requires Config(f) != "--target" && p.buildDir != "--target"
    ensures Count(BuildLine(t, f, p), "--target") == Indicator(f.install || f.framework)
  {
    JobsSpelling(t, f);
    SimulatorArgsFirst(t, f);
    if JobsGiven(f) {
      DecimalIsNoKeyword(f.jobs.value);
    }
    BuildCount(t, f, p, "--target");
  }

  /** `--config` is passed once exactly when a config is given. */
  lemma ConfigSelectorOnce(t: Entry, f: Flags, p: Paths)
    requires Config(f) != "--config" && p.buildDir != "--config"
    ensures Count(BuildLine(t, f, p), "--config") == Indicator(ConfigGiven(f))
  {
    SimulatorArgsFirst(t, f);
    if JobsGiven(f) {
      DecimalIsNoKeyword(f.jobs.value);
    }
    BuildCount(t, f, p, "--config");
  }
}
