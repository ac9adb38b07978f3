/**
 What the configure command promises: how it starts, how often each cache
 entry and each switch is set, where the toolchain file sits, and that the
 forwarded definitions come last in their given order.
 */
module ConfigureFacts {
  import opened CMakeArgs
  import opened Toolchain
  import opened Layout
  import opened Configure

  /** The command starts `cmake -H<home> -B<build dir>`, home defaulting to ".". */
  lemma ConfigureStartsWithBase(t: Entry, f: Flags, p: Paths, cpack: string)
    ensures var cmd := ConfigureLine(t, f, p, cpack);
            |cmd| >= 3 && cmd[0] == "cmake" && cmd[2] == "-B" + p.buildDir
            && cmd[1] == "-H" + (if f.home.Some? && f.home.value != "" then f.home.value else ".")
  {
    var s1 := ConfigureBase(f, p);
    var s2 := s1 + GuardedOptions(t, f);
    var s3 := s2 + FixedOptions(p);
    var s4 := s3 + PackagingOptions(f, p, cpack);
    assert s1[..3] == s2[..3] == s3[..3] == s4[..3] == ConfigureLine(t, f, p, cpack)[..3];
  }

  /** One `-D<item>` per forwarded item, in order. */
  lemma {:induction false} ForwardDefinesAt(items: seq<string>)
    ensures |ForwardDefines(items)| == |items|
    ensures forall i :: 0 <= i < |items| ==> ForwardDefines(items)[i] == "-D" + items[i]
  {
    if items != [] {
      ForwardDefinesAt(items[..|items| - 1]);
    }
  }

  /**
   The forwarded definitions come last, one `-D<item>` per `--fwd` item in the
   given order (`ForwardDefinesAt`).
   */
  lemma ForwardedLast(t: Entry, f: Flags, p: Paths, cpack: string)
    ensures var cmd, items := ConfigureLine(t, f, p, cpack), Forwarded(f);
            |items| <= |cmd| && cmd[|cmd| - |items|..] == ForwardDefines(items)
  {
    var cmd, items := ConfigureLine(t, f, p, cpack), Forwarded(f);
    var head := ConfigureBase(f, p) + GuardedOptions(t, f) + FixedOptions(p) + PackagingOptions(f, p, cpack);
    ForwardDefinesAt(items);
    assert cmd[|head|..] == ForwardDefines(items);
  }

  /** The guarded segment holds one argument per guard that holds. */
  lemma GuardedLength(t: Entry, f: Flags)
    ensures |GuardedOptions(t, f)| == Indicator(ParallelHint(t, f)) + Indicator(BuildTypeApplies(t, f))
                                      + Indicator(t.generator != "") + Indicator(t.xp)
  {
  }

  /**
   The toolchain file is always set, right after the guarded options: at
   index 3 plus the number of guarded options that apply.
   */
  lemma ToolchainFileAlwaysSet(t: Entry, f: Flags, p: Paths, cpack: string)
    ensures var cmd, k := ConfigureLine(t, f, p, cpack),
                         3 + Indicator(ParallelHint(t, f)) + Indicator(BuildTypeApplies(t, f))
                           + Indicator(t.generator != "") + Indicator(t.xp);
            k < |cmd| && cmd[k] == Define("CMAKE_TOOLCHAIN_FILE", p.toolchainFile)
  {
    GuardedLength(t, f);
    var s2 := ConfigureBase(f, p) + GuardedOptions(t, f);
    var s3 := s2 + FixedOptions(p);
    var s4 := s3 + PackagingOptions(f, p, cpack);
    assert s3[|s2|] == FixedOptions(p)[0];
    assert s4[|s2|] == s3[|s2|];
  }

  /**
   After the toolchain file come the three diagnostic switches, then the
   install prefix for a local install, then the CPack generator when one was
   resolved, each with its value, and then the forwarded definitions.
   */
  lemma PackagingAt(t: Entry, f: Flags, p: Paths, cpack: string)
    ensures var cmd, k := ConfigureLine(t, f, p, cpack), 3 + |GuardedOptions(t, f)| + 4;
            var m := k + Indicator(LocalInstall(f)) + Indicator(cpack != "");
            m <= |cmd|
            && cmd[k - 3] == Define("CMAKE_VERBOSE_MAKEFILE", "ON")
            && cmd[k - 2] == Define("POLLY_STATUS_DEBUG", "ON")
            && cmd[k - 1] == Define("HUNTER_STATUS_DEBUG", "ON")
            && (LocalInstall(f) ==> cmd[k] == Define("CMAKE_INSTALL_PREFIX", p.installDir))
            && (cpack != "" ==> cmd[k + Indicator(LocalInstall(f))] == Define("CPACK_GENERATOR", cpack))
            && cmd[m..] == ForwardDefines(Forwarded(f))
  {
    var s3 := ConfigureBase(f, p) + GuardedOptions(t, f) + FixedOptions(p);
    var pack := PackagingOptions(f, p, cpack);
    var s4 := s3 + pack;
    var cmd := s4 + ForwardDefines(Forwarded(f));
    var k := |s3|;
    assert |pack| == Indicator(LocalInstall(f)) + Indicator(cpack != "");
    assert s3[k - 3] == FixedOptions(p)[1] && s3[k - 2] == FixedOptions(p)[2] && s3[k - 1] == FixedOptions(p)[3];
    assert cmd[k - 3] == s3[k - 3] && cmd[k - 2] == s3[k - 2] && cmd[k - 1] == s3[k - 1];
    assert forall j :: 0 <= j < |pack| ==> cmd[k + j] == pack[j];
    assert cmd[|s4|..] == ForwardDefines(Forwarded(f));
  }

  /*
   * Counting cache definitions, segment by segment.
   */

  /** How many times the rules of the script, before the forwarded items, set cache entry `name`. */
  function HeadDefinitions(t: Entry, f: Flags, cpack: string, name: string): nat
  {
    if name == "POLLY_PARALLEL" then Indicator(ParallelHint(t, f))
    else if name == "CMAKE_BUILD_TYPE" then Indicator(BuildTypeApplies(t, f))
    else if name in ["CMAKE_TOOLCHAIN_FILE", "CMAKE_VERBOSE_MAKEFILE", "POLLY_STATUS_DEBUG", "HUNTER_STATUS_DEBUG"] then 1
    else if name == "CMAKE_INSTALL_PREFIX" then Indicator(LocalInstall(f))
    else if name == "CPACK_GENERATOR" then Indicator(cpack != "")
    else 0
  }

  lemma CountOneDefine(entry: string, value: string, name: string)
    requires IsName(entry) && IsName(name)
    ensures CountDefines([Define(entry, value)], name) == Indicator(entry == name)
  {
    CountSingle(Define(entry, value), name, 'D', "");
    DefinesDefine(entry, value, name);
  }

  lemma CountOneOther(arg: string, name: string)
    requires |arg| >= 2 && (arg[0] != '-' || arg[1] != 'D')
    ensures CountDefines([arg], name) == 0
  {
    CountSingle(arg, name, 'D', "");
    NotADefinition(arg, name);
  }

  lemma BaseDefinesNothing(f: Flags, p: Paths, name: string)
    ensures CountDefines(ConfigureBase(f, p), name) == 0
  {
    var h, b := "-H" + Home(f), "-B" + p.buildDir;
    assert ConfigureBase(f, p) == ["cmake"] + [h] + [b];
    CountDefinesConcat(["cmake"], [h], name);
    CountDefinesConcat(["cmake"] + [h], [b], name);
    CountOneOther("cmake", name);
    CountOneOther(h, name);
    CountOneOther(b, name);
  }

  /** The cache entry names the script sets itself. */
  lemma ScriptEntryNames()
    ensures IsName("POLLY_PARALLEL") && IsName("CMAKE_BUILD_TYPE") && IsName("CMAKE_TOOLCHAIN_FILE")
    ensures IsName("CMAKE_VERBOSE_MAKEFILE") && IsName("POLLY_STATUS_DEBUG") && IsName("HUNTER_STATUS_DEBUG")
    ensures IsName("CMAKE_INSTALL_PREFIX") && IsName("CPACK_GENERATOR")
  {
    NameOfLetters("POLLY_PARALLEL");
    NameOfLetters("CMAKE_BUILD_TYPE");
    NameOfLetters("CMAKE_TOOLCHAIN_FILE");
    NameOfLetters("CMAKE_VERBOSE_MAKEFILE");
    NameOfLetters("POLLY_STATUS_DEBUG");
    NameOfLetters("HUNTER_STATUS_DEBUG");
    NameOfLetters("CMAKE_INSTALL_PREFIX");
    NameOfLetters("CPACK_GENERATOR");
  }

  /** Upper-case letters and underscores make a cache entry name. */
  lemma NameOfLetters(name: string)
    requires forall i :: 0 <= i < |name| ==> 'A' <= name[i] <= 'Z' || name[i] == '_'
    ensures IsName(name)
  {
  }

  lemma CountWhenDefine(c: bool, entry: string, value: string, name: string)
    requires IsName(entry) && IsName(name)
    ensures CountDefines(When(c, [Define(entry, value)]), name) == Indicator(c && entry == name)
  {
    if c {
      CountOneDefine(entry, value, name);
    }
  }

  lemma CountWhenOther(c: bool, arg: string, name: string)
    requires |arg| >= 2 && arg[1] != 'D'
    ensures CountDefines(When(c, [arg]), name) == 0
  {
    if c {
      CountOneOther(arg, name);
    }
  }

  lemma GuardedDefinitions(t: Entry, f: Flags, name: string)
    requires IsName(name)
    ensures CountDefines(GuardedOptions(t, f), name)
            == Indicator(ParallelHint(t, f) && name == "POLLY_PARALLEL")
               + Indicator(BuildTypeApplies(t, f) && name == "CMAKE_BUILD_TYPE")
  {
    var w1 := When(ParallelHint(t, f), [Define("POLLY_PARALLEL", "YES")]);
    var w2 := When(BuildTypeApplies(t, f), [Define("CMAKE_BUILD_TYPE", Config(f))]);
    var w3 := When(t.generator != "", ["-G" + t.generator]);
    var w4 := When(t.xp, ["-T" + Toolset(t)]);
    ScriptEntryNames();
    assert CountDefines(w1, name) == Indicator(ParallelHint(t, f) && name == "POLLY_PARALLEL") by {
      CountWhenDefine(ParallelHint(t, f), "POLLY_PARALLEL", "YES", name);
    }
    assert CountDefines(w2, name) == Indicator(BuildTypeApplies(t, f) && name == "CMAKE_BUILD_TYPE") by {
      CountWhenDefine(BuildTypeApplies(t, f), "CMAKE_BUILD_TYPE", Config(f), name);
    }
    assert CountDefines(w3, name) == 0 by {
      CountWhenOther(t.generator != "", "-G" + t.generator, name);
    }
    assert CountDefines(w4, name) == 0 by {
      CountWhenOther(t.xp, "-T" + Toolset(t), name);
    }
    CountDefinesConcat(w1, w2, name);
    CountDefinesConcat(w1 + w2, w3, name);
    CountDefinesConcat(w1 + w2 + w3, w4, name);
  }

  lemma FixedDefinitions(p: Paths, name: string)
    requires IsName(name)
    ensures CountDefines(FixedOptions(p), name)
            == Indicator(name == "CMAKE_TOOLCHAIN_FILE") + Indicator(name == "CMAKE_VERBOSE_MAKEFILE")
               + Indicator(name == "POLLY_STATUS_DEBUG") + Indicator(name == "HUNTER_STATUS_DEBUG")
  {
    var a, b := Define("CMAKE_TOOLCHAIN_FILE", p.toolchainFile), Define("CMAKE_VERBOSE_MAKEFILE", "ON");
    var c, d := Define("POLLY_STATUS_DEBUG", "ON"), Define("HUNTER_STATUS_DEBUG", "ON");
    ScriptEntryNames();
    assert FixedOptions(p) == [a] + [b] + [c] + [d];
    assert CountDefines([a], name) == Indicator(name == "CMAKE_TOOLCHAIN_FILE") by {
      CountOneDefine("CMAKE_TOOLCHAIN_FILE", p.toolchainFile, name);
    }
    assert CountDefines([b], name) == Indicator(name == "CMAKE_VERBOSE_MAKEFILE") by {
      CountOneDefine("CMAKE_VERBOSE_MAKEFILE", "ON", name);
    }
    assert CountDefines([c], name) == Indicator(name == "POLLY_STATUS_DEBUG") by {
      CountOneDefine("POLLY_STATUS_DEBUG", "ON", name);
    }
    assert CountDefines([d], name) == Indicator(name == "HUNTER_STATUS_DEBUG") by {
      CountOneDefine("HUNTER_STATUS_DEBUG", "ON", name);
    }
    CountDefinesConcat([a], [b], name);
    CountDefinesConcat([a] + [b], [c], name);
    CountDefinesConcat([a] + [b] + [c], [d], name);
  }

  lemma PackagingDefinitions(f: Flags, p: Paths, cpack: string, name: string)
    requires IsName(name)
    ensures CountDefines(PackagingOptions(f, p, cpack), name)
            == Indicator(LocalInstall(f) && name == "CMAKE_INSTALL_PREFIX")
               + Indicator(cpack != "" && name == "CPACK_GENERATOR")
  {
    var w1 := When(LocalInstall(f), [Define("CMAKE_INSTALL_PREFIX", p.installDir)]);
    var w2 := When(cpack != "", [Define("CPACK_GENERATOR", cpack)]);
    ScriptEntryNames();
    assert CountDefines(w1, name) == Indicator(LocalInstall(f) && name == "CMAKE_INSTALL_PREFIX") by {
      CountWhenDefine(LocalInstall(f), "CMAKE_INSTALL_PREFIX", p.installDir, name);
    }
    assert CountDefines(w2, name) == Indicator(cpack != "" && name == "CPACK_GENERATOR") by {
      CountWhenDefine(cpack != "", "CPACK_GENERATOR", cpack, name);
    }
    CountDefinesConcat(w1, w2, name);
  }

  /** The forwarded definitions set an entry once per item that assigns it. */
  lemma {:induction false} ForwardDefinesCount(items: seq<string>, name: string)
    ensures CountDefines(ForwardDefines(items), name) == CountAssigns(items, name)
  {
    if items != [] {
      var init, last := items[..|items| - 1], items[|items| - 1];
      CountDefinesConcat(ForwardDefines(init), ["-D" + last], name);
      CountSingle("-D" + last, name, 'D', "");
      DefinesForwarded(last, name);
      ForwardDefinesCount(init, name);
    }
  }

  /**
   Every cache entry is set as often as the script's own rules say
   (`HeadDefinitions`), plus once for each `--fwd` item that assigns it.
   */
  lemma ConfigureDefinitions(t: Entry, f: Flags, p: Paths, cpack: string, name: string)
    requires IsName(name)
    ensures CountDefines(ConfigureLine(t, f, p, cpack), name)
            == HeadDefinitions(t, f, cpack, name) + CountAssigns(Forwarded(f), name)
  {
    var s1 := ConfigureBase(f, p);
    var s2 := s1 + GuardedOptions(t, f);
    var s3 := s2 + FixedOptions(p);
    var s4 := s3 + PackagingOptions(f, p, cpack);
    CountDefinesConcat(s1, GuardedOptions(t, f), name);
    CountDefinesConcat(s2, FixedOptions(p), name);
    CountDefinesConcat(s3, PackagingOptions(f, p, cpack), name);
    CountDefinesConcat(s4, ForwardDefines(Forwarded(f)), name);
    BaseDefinesNothing(f, p, name);
    GuardedDefinitions(t, f, name);
    FixedDefinitions(p, name);
    PackagingDefinitions(f, p, cpack, name);
    ForwardDefinesCount(Forwarded(f), name);
    HeadDefinitionsSum(t, f, cpack, name);
  }

  /** The table `HeadDefinitions` is the sum of what each segment contributes. */
  lemma HeadDefinitionsSum(t: Entry, f: Flags, cpack: string, name: string)
    ensures HeadDefinitions(t, f, cpack, name)
            == Indicator(ParallelHint(t, f) && name == "POLLY_PARALLEL")
               + Indicator(BuildTypeApplies(t, f) && name == "CMAKE_BUILD_TYPE")
               + (Indicator(name == "CMAKE_TOOLCHAIN_FILE") + Indicator(name == "CMAKE_VERBOSE_MAKEFILE")
                  + Indicator(name == "POLLY_STATUS_DEBUG") + Indicator(name == "HUNTER_STATUS_DEBUG"))
               + (Indicator(LocalInstall(f) && name == "CMAKE_INSTALL_PREFIX")
                  + Indicator(cpack != "" && name == "CPACK_GENERATOR"))
  {
  }

  /**
   `-DCMAKE_BUILD_TYPE=<config>` is in the command exactly when a config is
   given and the generator is single-configuration, and then it is the only
   build-type definition unless a `--fwd` item sets the build type too.
   */
  lemma BuildTypeOption(t: Entry, f: Flags, p: Paths, cpack: string)
    ensures CountDefines(ConfigureLine(t, f, p, cpack), "CMAKE_BUILD_TYPE")
            == Indicator(BuildTypeApplies(t, f)) + CountAssigns(Forwarded(f), "CMAKE_BUILD_TYPE")
    ensures BuildTypeApplies(t, f) ==> Define("CMAKE_BUILD_TYPE", Config(f)) in ConfigureLine(t, f, p, cpack)
  {
    ConfigureDefinitions(t, f, p, cpack, "CMAKE_BUILD_TYPE");
    if BuildTypeApplies(t, f) {
      GuardedAt(t, f, p, cpack, 1, 3 + Indicator(ParallelHint(t, f)));
    }
  }

  /**
   `-DPOLLY_PARALLEL=YES` is in the command exactly when the toolchain is a
   Visual Studio one and jobs are given, and then it is the only parallel
   hint unless a `--fwd` item sets one too.
   */
  lemma ParallelOption(t: Entry, f: Flags, p: Paths, cpack: string)
    ensures CountDefines(ConfigureLine(t, f, p, cpack), "POLLY_PARALLEL")
            == Indicator(t.vsVersion != "" && JobsGiven(f)) + CountAssigns(Forwarded(f), "POLLY_PARALLEL")
    ensures ParallelHint(t, f) ==> Define("POLLY_PARALLEL", "YES") in ConfigureLine(t, f, p, cpack)
  {
    ConfigureDefinitions(t, f, p, cpack, "POLLY_PARALLEL");
    if ParallelHint(t, f) {
      GuardedAt(t, f, p, cpack, 0, 3);
    }
  }

  /*
   * Counting switches.
   */

  lemma CountOneSwitch(arg: string, letter: char)
    ensures CountSwitch([arg], letter) == Indicator(IsSwitch(arg, letter))
  {
    CountSingle(arg, "", letter, "");
  }

  lemma {:induction false} ForwardDefinesSwitches(items: seq<string>, letter: char)
    requires letter != 'D'
    ensures CountSwitch(ForwardDefines(items), letter) == 0
  {
    if items != [] {
      var init, last := items[..|items| - 1], items[|items| - 1];
      CountSwitchConcat(ForwardDefines(init), ["-D" + last], letter);
      CountOneSwitch("-D" + last, letter);
      ForwardDefinesSwitches(init, letter);
    }
  }

  lemma BaseSwitches(f: Flags, p: Paths, letter: char)
    requires letter != 'H' && letter != 'B'
    ensures CountSwitch(ConfigureBase(f, p), letter) == 0
  {
    var h, b := "-H" + Home(f), "-B" + p.buildDir;
    assert ConfigureBase(f, p) == ["cmake"] + [h] + [b];
    CountSwitchConcat(["cmake"], [h], letter);
    CountSwitchConcat(["cmake"] + [h], [b], letter);
    CountOneSwitch("cmake", letter);
    CountOneSwitch(h, letter);
    CountOneSwitch(b, letter);
  }

  /** A definition is the switch `-D` and no other. */
  lemma DefineIsNoOtherSwitch(name: string, value: string, letter: char)
    requires letter != 'D'
    ensures !IsSwitch(Define(name, value), letter)
  {
    assert Define(name, value)[1] == 'D';
  }

  lemma CountWhenSwitch(c: bool, arg: string, letter: char)
    ensures CountSwitch(When(c, [arg]), letter) == Indicator(c && IsSwitch(arg, letter))
  {
    if c {
      CountOneSwitch(arg, letter);
    }
  }

  lemma GuardedSwitches(t: Entry, f: Flags, letter: char)
    requires letter != 'D'
    ensures CountSwitch(GuardedOptions(t, f), letter)
            == Indicator(t.generator != "" && letter == 'G') + Indicator(t.xp && letter == 'T')
  {
    var w1 := When(ParallelHint(t, f), [Define("POLLY_PARALLEL", "YES")]);
    var w2 := When(BuildTypeApplies(t, f), [Define("CMAKE_BUILD_TYPE", Config(f))]);
    var w3 := When(t.generator != "", ["-G" + t.generator]);
    var w4 := When(t.xp, ["-T" + Toolset(t)]);
    assert CountSwitch(w1, letter) == 0 by {
      CountWhenSwitch(ParallelHint(t, f), Define("POLLY_PARALLEL", "YES"), letter);
      DefineIsNoOtherSwitch("POLLY_PARALLEL", "YES", letter);
    }
    assert CountSwitch(w2, letter) == 0 by {
      CountWhenSwitch(BuildTypeApplies(t, f), Define("CMAKE_BUILD_TYPE", Config(f)), letter);
      DefineIsNoOtherSwitch("CMAKE_BUILD_TYPE", Config(f), letter);
    }
    assert CountSwitch(w3, letter) == Indicator(t.generator != "" && letter == 'G') by {
      CountWhenSwitch(t.generator != "", "-G" + t.generator, letter);
    }
    assert CountSwitch(w4, letter) == Indicator(t.xp && letter == 'T') by {
      CountWhenSwitch(t.xp, "-T" + Toolset(t), letter);
    }
    CountSwitchConcat(w1, w2, letter);
    CountSwitchConcat(w1 + w2, w3, letter);
    CountSwitchConcat(w1 + w2 + w3, w4, letter);
  }

  lemma FixedSwitches(p: Paths, letter: char)
    requires letter != 'D'
    ensures CountSwitch(FixedOptions(p), letter) == 0
  {
    var a, b := Define("CMAKE_TOOLCHAIN_FILE", p.toolchainFile), Define("CMAKE_VERBOSE_MAKEFILE", "ON");
    var c, d := Define("POLLY_STATUS_DEBUG", "ON"), Define("HUNTER_STATUS_DEBUG", "ON");
    assert FixedOptions(p) == [a] + [b] + [c] + [d];
    CountSwitchConcat([a], [b], letter);
    CountSwitchConcat([a] + [b], [c], letter);
    CountSwitchConcat([a] + [b] + [c], [d], letter);
    CountOneSwitch(a, letter);
    CountOneSwitch(b, letter);
    CountOneSwitch(c, letter);
    CountOneSwitch(d, letter);
  }

  lemma PackagingSwitches(f: Flags, p: Paths, cpack: string, letter: char)
    requires letter != 'D'
    ensures CountSwitch(PackagingOptions(f, p, cpack), letter) == 0
  {
    var w1 := When(LocalInstall(f), [Define("CMAKE_INSTALL_PREFIX", p.installDir)]);
    var w2 := When(cpack != "", [Define("CPACK_GENERATOR", cpack)]);
    CountSwitchConcat(w1, w2, letter);
    CountOneSwitch(Define("CMAKE_INSTALL_PREFIX", p.installDir), letter);
    CountOneSwitch(Define("CPACK_GENERATOR", cpack), letter);
  }

  /**
   Apart from `-D`, `-H` and `-B`, the only switches in the command are the
   generator `-G`, present once exactly when the toolchain names one, and the
   toolset `-T`, present once exactly when the toolchain is an XP one; `--fwd`
   items never add a switch, since each is glued to `-D`.
   */
  lemma ConfigureSwitches(t: Entry, f: Flags, p: Paths, cpack: string, letter: char)
    requires letter != 'D' && letter != 'H' && letter != 'B'
    ensures CountSwitch(ConfigureLine(t, f, p, cpack), letter)
            == Indicator(t.generator != "" && letter == 'G') + Indicator(t.xp && letter == 'T')
  {
    var s1 := ConfigureBase(f, p);
    var s2 := s1 + GuardedOptions(t, f);
    var s3 := s2 + FixedOptions(p);
    var s4 := s3 + PackagingOptions(f, p, cpack);
    CountSwitchConcat(s1, GuardedOptions(t, f), letter);
    CountSwitchConcat(s2, FixedOptions(p), letter);
    CountSwitchConcat(s3, PackagingOptions(f, p, cpack), letter);
    CountSwitchConcat(s4, ForwardDefines(Forwarded(f)), letter);
    BaseSwitches(f, p, letter);
    GuardedSwitches(t, f, letter);
    FixedSwitches(p, letter);
    PackagingSwitches(f, p, cpack, letter);
    ForwardDefinesSwitches(Forwarded(f), letter);
  }

  /**
   The `n`-th guarded append (parallel hint, build type, generator, toolset),
   when it applies, lands at index `k`: 3 plus the guarded appends before it.
   */
  function GuardedArg(t: Entry, f: Flags, n: nat): string
    requires n < 4
  {
    [Define("POLLY_PARALLEL", "YES"), Define("CMAKE_BUILD_TYPE", Config(f)), "-G" + t.generator, "-T" + Toolset(t)][n]
  }

  function GuardHolds(t: Entry, f: Flags, n: nat): bool
    requires n < 4
  {
    [ParallelHint(t, f), BuildTypeApplies(t, f), t.generator != "", t.xp][n]
  }

  /** How many guarded appends before the `n`-th one apply. */
  function GuardedOffset(t: Entry, f: Flags, n: nat): nat
  {
    (if n > 0 then Indicator(ParallelHint(t, f)) else 0)
      + (if n > 1 then Indicator(BuildTypeApplies(t, f)) else 0)
      + (if n > 2 then Indicator(t.generator != "") else 0)
  }

  lemma GuardedOptionsAt(t: Entry, f: Flags, n: nat, j: nat)
    requires n < 4 && GuardHolds(t, f, n)
    requires j == GuardedOffset(t, f, n)
    ensures j < |GuardedOptions(t, f)| && GuardedOptions(t, f)[j] == GuardedArg(t, f, n)
  {
    var w1 := When(ParallelHint(t, f), [Define("POLLY_PARALLEL", "YES")]);
    var w2 := When(BuildTypeApplies(t, f), [Define("CMAKE_BUILD_TYPE", Config(f))]);
    var w3 := When(t.generator != "", ["-G" + t.generator]);
    var w4 := When(t.xp, ["-T" + Toolset(t)]);
    var g := GuardedOptions(t, f);
    if n == 0 {
      assert g[j] == (w1 + w2 + w3)[j] == (w1 + w2)[j] == w1[j];
    } else if n == 1 {
      assert g[j] == (w1 + w2 + w3)[j] == (w1 + w2)[j] == w2[j - |w1|];
    } else if n == 2 {
      assert g[j] == (w1 + w2 + w3)[j] == w3[j - |w1 + w2|];
    } else {
      assert g[j] == w4[j - |w1 + w2 + w3|];
    }
  }

  /** The guarded options follow the three base arguments unchanged. */
  lemma LineKeepsGuarded(t: Entry, f: Flags, p: Paths, cpack: string, j: nat)
    requires j < |GuardedOptions(t, f)|
    ensures 3 + j < |ConfigureLine(t, f, p, cpack)| && ConfigureLine(t, f, p, cpack)[3 + j] == GuardedOptions(t, f)[j]
  {
    var s2 := ConfigureBase(f, p) + GuardedOptions(t, f);
    var s3 := s2 + FixedOptions(p);
    var s4 := s3 + PackagingOptions(f, p, cpack);
    assert s2[3 + j] == GuardedOptions(t, f)[j];
    assert s3[3 + j] == s2[3 + j];
    assert s4[3 + j] == s3[3 + j];
  }

  lemma GuardedAt(t: Entry, f: Flags, p: Paths, cpack: string, n: nat, k: nat)
    requires n < 4 && GuardHolds(t, f, n)
    requires k == 3 + GuardedOffset(t, f, n)
    ensures k < |ConfigureLine(t, f, p, cpack)| && ConfigureLine(t, f, p, cpack)[k] == GuardedArg(t, f, n)
  {
    GuardedOptionsAt(t, f, n, k - 3);
    LineKeepsGuarded(t, f, p, cpack, k - 3);
  }

  /** When the toolchain names a generator, `-G<generator>` is in the command; with the XP flag, `-Tv<vs>0_xp`. */
  lemma GeneratorAndToolsetValues(t: Entry, f: Flags, p: Paths, cpack: string)
    ensures t.generator != "" ==> "-G" + t.generator in ConfigureLine(t, f, p, cpack)
    ensures t.xp ==> "-T" + ("v" + t.vsVersion + "0_xp") in ConfigureLine(t, f, p, cpack)
  {
    if t.generator != "" {
      GuardedAt(t, f, p, cpack, 2, 3 + Indicator(ParallelHint(t, f)) + Indicator(BuildTypeApplies(t, f)));
    }
    if t.xp {
      GuardedAt(t, f, p, cpack, 3, 3 + Indicator(ParallelHint(t, f)) + Indicator(BuildTypeApplies(t, f))
                                    + Indicator(t.generator != ""));
    }
  }
}
