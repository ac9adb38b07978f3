/**
 The vocabulary of CMake command lines: cache definitions `-D<name>=<value>`,
 one-letter switches such as `-G<generator>`, and counting what a command
 line holds.
 */
module CMakeArgs {
  import opened Text

  /** `"-D{}={}".format(name, value)`: sets cache entry `name` to `value`. */
  function Define(name: string, value: string): string
  {
    "-D" + name + "=" + value
  }

  /** A well-formed cache entry name holds no '='. */
  predicate IsName(name: string)
  {
    '=' !in name
  }

  /**
   `arg` sets cache entry `name` in the untyped form `-D<name>=<value>`,
   whatever the value. CMake also accepts the typed form
   `-D<name>:<type>=<value>`; that form is not recognised here, so the
   counts below cover untyped definitions only.
   */
  predicate Defines(arg: string, name: string)
  {
    HasPrefix(arg, "-D" + name + "=")
  }

  /** `arg` is the one-letter switch `-<letter>`, with or without a value glued on. */
  predicate IsSwitch(arg: string, letter: char)
  {
    |arg| >= 2 && arg[0] == '-' && arg[1] == letter
  }

  /** `KEY=VALUE` as given to `--fwd`: it sets `name` once prefixed with `-D` (untyped form only). */
  predicate Assigns(item: string, name: string)
  {
    HasPrefix(item, name + "=")
  }

  /** `xs` when `c` holds, nothing otherwise: one guarded `append`. */
  function When(c: bool, xs: seq<string>): seq<string>
  {
    if c then xs else []
  }

  /** 1 when `b` holds, 0 otherwise: what one guarded append adds to a count. */
  function Indicator(b: bool): nat
  {
    if b then 1 else 0
  }

  /** How many arguments set cache entry `name`. */
  function CountDefines(args: seq<string>, name: string): nat
  {
    if args == [] then 0
    else CountDefines(args[..|args| - 1], name) + (if Defines(args[|args| - 1], name) then 1 else 0)
  }

  /** How many arguments are the switch `-<letter>`. */
  function CountSwitch(args: seq<string>, letter: char): nat
  {
    if args == [] then 0
    else CountSwitch(args[..|args| - 1], letter) + (if IsSwitch(args[|args| - 1], letter) then 1 else 0)
  }

  /** How many `--fwd` items assign `name`. */
  function CountAssigns(items: seq<string>, name: string): nat
  {
    if items == [] then 0
    else CountAssigns(items[..|items| - 1], name) + (if Assigns(items[|items| - 1], name) then 1 else 0)
  }

  /** How many arguments are exactly `x`. */
  function Count(args: seq<string>, x: string): nat
  {
    if args == [] then 0
    else Count(args[..|args| - 1], x) + (if args[|args| - 1] == x then 1 else 0)
  }

  lemma {:induction false} CountDefinesConcat(a: seq<string>, b: seq<string>, name: string)
    ensures CountDefines(a + b, name) == CountDefines(a, name) + CountDefines(b, name)
  {
    if b != [] {
      assert (a + b)[..|a + b| - 1] == a + b[..|b| - 1];
      CountDefinesConcat(a, b[..|b| - 1], name);
    } else {
      assert a + b == a;
    }
  }

  lemma {:induction false} CountSwitchConcat(a: seq<string>, b: seq<string>, letter: char)
    ensures CountSwitch(a + b, letter) == CountSwitch(a, letter) + CountSwitch(b, letter)
  {
    if b != [] {
      assert (a + b)[..|a + b| - 1] == a + b[..|b| - 1];
      CountSwitchConcat(a, b[..|b| - 1], letter);
    } else {
      assert a + b == a;
    }
  }

  lemma {:induction false} CountConcat(a: seq<string>, b: seq<string>, x: string)
    ensures Count(a + b, x) == Count(a, x) + Count(b, x)
  {
    if b != [] {
      assert (a + b)[..|a + b| - 1] == a + b[..|b| - 1];
      CountConcat(a, b[..|b| - 1], x);
    } else {
      assert a + b == a;
    }
  }

  /** `x` occurs in `args` exactly when it is counted. */
  lemma {:induction false} CountPositive(args: seq<string>, x: string)
    ensures Count(args, x) > 0 <==> x in args
  {
    if args != [] {
      CountPositive(args[..|args| - 1], x);
      assert args == args[..|args| - 1] + [args[|args| - 1]];
    }
  }

  /** A definition sets exactly the entry it names, and no other. */
  lemma DefinesDefine(name: string, value: string, other: string)
    requires IsName(name) && IsName(other)
    ensures Defines(Define(name, value), other) <==> name == other
  {
    var a := Define(name, value);
    var p := "-D" + other + "=";
    if name == other {
      assert a == p + value;
      PrefixOfConcat(p, value);
    } else if |name| < |other| {
      assert a[2 + |name|] == '=';
      assert p[2 + |name|] == other[|name|];
      NoPrefixAt(a, p, 2 + |name|);
    } else if |name| > |other| {
      assert p[2 + |other|] == '=';
      assert a[2 + |other|] == name[|other|];
      NoPrefixAt(a, p, 2 + |other|);
    } else {
      assert a[2..2 + |name|] == name;
      assert p[2..2 + |other|] == other;
    }
  }

  /** `-D` glued to a `--fwd` item sets what the item assigns. */
  lemma DefinesForwarded(item: string, name: string)
    ensures Defines("-D" + item, name) <==> Assigns(item, name)
  {
    var a := "-D" + item;
    var p := "-D" + name + "=";
    if Assigns(item, name) {
      assert a[..|p|] == "-D" + item[..|name| + 1];
    }
    if Defines(a, name) {
      assert item[..|name| + 1] == a[..|p|][2..];
    }
  }

  /** An argument whose second character is not 'D' sets no cache entry. */
  lemma NotADefinition(arg: string, name: string)
    requires |arg| >= 2 && (arg[0] != '-' || arg[1] != 'D')
    ensures !Defines(arg, name)
  {
    if arg[0] != '-' {
      NoPrefixAt(arg, "-D" + name + "=", 0);
    } else {
      NoPrefixAt(arg, "-D" + name + "=", 1);
    }
  }

  /** Counting over a single argument. */
  lemma CountSingle(x: string, name: string, letter: char, y: string)
    ensures CountDefines([x], name) == (if Defines(x, name) then 1 else 0)
    ensures CountSwitch([x], letter) == (if IsSwitch(x, letter) then 1 else 0)
    ensures Count([x], y) == (if x == y then 1 else 0)
  {
    assert [x][..0] == [];
  }
}
