/**
 Strings as the script manipulates them: prefixes, POSIX path joining and
 the decimal rendering of an integer by `'{}'.format(n)`.
 */
module Text {

  /** `s.startswith(p)` */
  predicate HasPrefix(s: string, p: string)
  {
    |p| <= |s| && s[..|p|] == p
  }

  /** A string does not start with `p` once one of `p`'s characters differs. */
  lemma NoPrefixAt(s: string, p: string, i: nat)
    requires i < |s| && i < |p| && s[i] != p[i]
    ensures !HasPrefix(s, p)
  {
  }

  lemma PrefixOfConcat(p: string, rest: string)
    ensures HasPrefix(p + rest, p)
  {
    assert (p + rest)[..|p|] == p;
  }

  predicate StartsWithSlash(s: string)
  {
    |s| > 0 && s[0] == '/'
  }

  /**
   `posixpath.join(base, part)`: an absolute `part` replaces `base`; otherwise
   `part` is appended, with a '/' in between unless `base` is empty or already
   ends with one.
   */
  function Join(base: string, part: string): (r: string)
    ensures StartsWithSlash(part) ==> r == part
    ensures !StartsWithSlash(part) ==> HasPrefix(r, base) && |part| <= |r| && r[|r| - |part|..] == part
  {
    if StartsWithSlash(part) then part
    else if base == "" || base[|base| - 1] == '/' then base + part
    else base + "/" + part
  }

  /** What `Join` puts between `base` and a relative `part`. */
  function Separator(base: string): string
  {
    if base == "" || base[|base| - 1] == '/' then "" else "/"
  }

  /** Joining onto the same base never maps two relative parts to one path. */
  lemma JoinInjective(base: string, p1: string, p2: string)
    requires !StartsWithSlash(p1) && !StartsWithSlash(p2)
    requires Join(base, p1) == Join(base, p2)
    ensures p1 == p2
  {
    var head := base + Separator(base);
    assert Join(base, p1) == head + p1;
    assert Join(base, p2) == head + p2;
    assert p1 == (head + p1)[|head|..];
    assert p2 == (head + p2)[|head|..];
  }

  /** A relative `part` joined onto a non-empty base keeps every character of the base. */
  lemma JoinKeeps(base: string, part: string, c: char)
    requires !StartsWithSlash(part) && c in base
    ensures c in Join(base, part)
  {
    var r := Join(base, part);
    var i :| 0 <= i < |base| && base[i] == c;
    assert r[..|base|][i] == c;
  }

  predicate IsDigit(c: char)
  {
    '0' <= c <= '9'
  }

  predicate AllDigits(s: string)
  {
    forall i :: 0 <= i < |s| ==> IsDigit(s[i])
  }

  function DigitChar(d: nat): (c: char)
    requires d < 10
    ensures IsDigit(c) && (c as int) - ('0' as int) == d
  {
    ['0', '1', '2', '3', '4', '5', '6', '7', '8', '9'][d]
  }

  function DigitValue(c: char): nat
    requires IsDigit(c)
  {
    (c as int) - ('0' as int)
  }

  /** Decimal digits of `n`, most significant first, without leading zeros. */
  function NatDigits(n: nat): (s: string)
    ensures |s| >= 1 && AllDigits(s)
    ensures s[0] == '0' ==> n == 0
  {
    if n < 10 then [DigitChar(n)] else NatDigits(n / 10) + [DigitChar(n % 10)]
  }

  /** The digits of a decimal rendering, after its sign if any. */
  function Magnitude(s: string): string
    requires |s| >= 1
  {
    if s[0] == '-' then s[1..] else s
  }

  /** An optional '-' followed by at least one digit. */
  predicate IsDecimal(s: string)
  {
    |s| >= 1 && |Magnitude(s)| >= 1 && AllDigits(Magnitude(s))
  }

  /** Python's `'{}'.format(n)` for an integer `n`. */
  function Decimal(n: int): (s: string)
    ensures IsDecimal(s)
    ensures n < 0 <==> s[0] == '-'
  {
    if n < 0 then "-" + NatDigits(-n) else NatDigits(n)
  }

  /** Reads back a string of decimal digits. */
  function ParseNat(s: string): nat
    requires AllDigits(s)
  {
    if s == [] then 0 else ParseNat(s[..|s| - 1]) * 10 + DigitValue(s[|s| - 1])
  }

  /** `int(s)` for what `Decimal` produces. */
  function ParseInt(s: string): int
    requires IsDecimal(s)
  {
    if s[0] == '-' then -(ParseNat(Magnitude(s)) as int) else ParseNat(Magnitude(s))
  }

  lemma {:induction false} NatDigitsRoundTrip(n: nat)
    ensures ParseNat(NatDigits(n)) == n
  {
    if n >= 10 {
      var s := NatDigits(n);
      assert s[..|s| - 1] == NatDigits(n / 10);
      NatDigitsRoundTrip(n / 10);
    }
  }

  /** `int('{}'.format(n)) == n`: the rendered job count denotes the given one. */
  lemma DecimalRoundTrip(n: int)
    ensures ParseInt(Decimal(n)) == n
  {
    var s := Decimal(n);
    if n < 0 {
      var m := NatDigits(-n);
      assert s == "-" + m;
      assert Magnitude(s) == m by {
        assert s[1..] == m;
      }
      NatDigitsRoundTrip(-n);
    } else {
      assert s == NatDigits(n);
      assert Magnitude(s) == s by {
        assert IsDigit(s[0]);
      }
      NatDigitsRoundTrip(n);
    }
  }
}
