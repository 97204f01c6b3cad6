/**
 * The JavaScript string operations the pipeline relies on (`trim`, `toLowerCase`,
 * `startsWith`, `includes`, `indexOf`, `lastIndexOf`, `split`, `join`, `replace`
 * with a global pattern, `substring`, `slice`, number-to-string and `parseInt`),
 * written over `string`, a sequence of characters.
 */
module Js {
  import opened Common

  // ---------------------------------------------------------------- whitespace

  /** The ECMAScript WhiteSpace and LineTerminator code points: what `trim` removes and `parseInt` skips. */
  predicate IsSpace(c: char) {
    || c == ' ' || c == '\t' || c == '\n' || c == '\r' || c == '\U{B}' || c == '\U{C}'
    || c == '\U{A0}' || c == '\U{1680}' || ('\U{2000}' <= c <= '\U{200A}')
    || c == '\U{2028}' || c == '\U{2029}' || c == '\U{202F}' || c == '\U{205F}'
    || c == '\U{3000}' || c == '\U{FEFF}'
  }

  predicate AllSpace(s: string) {
    forall i :: 0 <= i < |s| ==> IsSpace(s[i])
  }

  /** The number of white-space characters `s` begins with. */
  function LeadingSpaces(s: string): (n: nat)
    ensures n <= |s|
    ensures forall j :: 0 <= j < n ==> IsSpace(s[j])
    ensures n < |s| ==> !IsSpace(s[n])
  {
    if s != [] && IsSpace(s[0]) then 1 + LeadingSpaces(s[1..]) else 0
  }

  /** The number of white-space characters `s` ends with. */
  function TrailingSpaces(s: string): (n: nat)
    ensures n <= |s|
    ensures forall j :: |s| - n <= j < |s| ==> IsSpace(s[j])
    ensures n < |s| ==> !IsSpace(s[|s| - 1 - n])
  {
    if s != [] && IsSpace(s[|s| - 1]) then 1 + TrailingSpaces(s[..|s| - 1]) else 0
  }

  /** `trimStart`: `s` without its leading white space. */
  function TrimStart(s: string): (r: string)
    ensures r != [] ==> !IsSpace(r[0])
    ensures r == [] <==> AllSpace(s)
  {
    s[LeadingSpaces(s)..]
  }

  /** `trimEnd`: `s` without its trailing white space. */
  function TrimEnd(s: string): (r: string)
    ensures r != [] ==> !IsSpace(r[|r| - 1])
    ensures r == [] <==> AllSpace(s)
  {
    s[..|s| - TrailingSpaces(s)]
  }

  /** `trim`: `s` without its leading and trailing white space. */
  function Trim(s: string): (r: string)
    ensures |r| <= |s|
    ensures r == [] <==> AllSpace(s)
    ensures r != [] ==> !IsSpace(r[0]) && !IsSpace(r[|r| - 1])
    ensures s == [] || (!IsSpace(s[0]) && !IsSpace(s[|s| - 1])) ==> r == s
  {
    var t := TrimStart(s);
    var r := TrimEnd(t);
    assert r == [] <==> t == [];
    assert r != [] ==> r[0] == t[0];
    assert s == [] || (!IsSpace(s[0]) && !IsSpace(s[|s| - 1])) ==> t == s && r == t;
    r
  }

  // ---------------------------------------------------------------- case

  /** `toLowerCase` on one character (the ASCII letters A to Z). */
  function LowerChar(c: char): char {
    if 'A' <= c <= 'Z' then (c as int + 32) as char else c
  }

  /** `toLowerCase`, on the letters A to Z only: other characters are kept as they are. */
  function Lower(s: string): (r: string)
    ensures |r| == |s|
    ensures forall i :: 0 <= i < |s| ==> r[i] == LowerChar(s[i])
  {
    seq(|s|, i requires 0 <= i < |s| => LowerChar(s[i]))
  }

  /** Lower-casing twice is lower-casing once. */
  lemma LowerIdempotent(s: string)
    ensures Lower(Lower(s)) == Lower(s)
  {
    assert forall i :: 0 <= i < |s| ==> LowerChar(LowerChar(s[i])) == LowerChar(s[i]);
  }

  // ---------------------------------------------------------------- searching

  predicate StartsWith(s: string, prefix: string) {
    prefix <= s
  }

  predicate EndsWith(s: string, suffix: string) {
    |suffix| <= |s| && s[|s| - |suffix|..] == suffix
  }

  /** `t` occurs in `s` at position `i`. */
  predicate OccursAt(s: string, t: string, i: int) {
    0 <= i && i + |t| <= |s| && s[i..i + |t|] == t
  }

  /** `indexOf(t, from)`: the first position at or after `from` where `t` occurs, or -1. */
  function IndexOfFrom(s: string, t: string, from: nat): (r: int)
    requires from <= |s|
    ensures r == -1 || (from <= r && OccursAt(s, t, r))
    ensures forall j :: from <= j < (if r == -1 then |s| + 1 else r) ==> !OccursAt(s, t, j)
    decreases |s| - from
  {
    if OccursAt(s, t, from) then from
    else if from == |s| then -1
    else IndexOfFrom(s, t, from + 1)
  }

  /** `indexOf(t)`. */
  function IndexOf(s: string, t: string): (r: int)
    ensures r == -1 || OccursAt(s, t, r)
    ensures forall j :: 0 <= j < (if r == -1 then |s| + 1 else r) ==> !OccursAt(s, t, j)
  {
    IndexOfFrom(s, t, 0)
  }

  /** `includes(t)`: `t` starts `s` or occurs in what follows its first character. */
  predicate Contains(s: string, t: string)
    decreases |s|
  {
    t <= s || (s != [] && Contains(s[1..], t))
  }

  lemma {:induction false} ContainsAt(s: string, t: string, i: int)
    requires OccursAt(s, t, i)
    ensures Contains(s, t)
    decreases i
  {
    if i == 0 {
      assert s[..|t|] == t;
    } else {
      assert s[1..][i - 1..i - 1 + |t|] == s[i..i + |t|];
      ContainsAt(s[1..], t, i - 1);
    }
  }

  /** Every text that contains `t` holds an occurrence of it at some position. */
  lemma {:induction false} ContainsOccurs(s: string, t: string) returns (i: nat)
    requires Contains(s, t)
    ensures OccursAt(s, t, i)
    decreases |s|
  {
    if t <= s {
      i := 0;
      assert s[..|t|] == t;
    } else {
      var j := ContainsOccurs(s[1..], t);
      assert s[1..][j..j + |t|] == s[j + 1..j + 1 + |t|];
      i := j + 1;
    }
  }

  /** `includes(t)` is `indexOf(t) !== -1`. */
  lemma ContainsIndexOf(s: string, t: string)
    ensures Contains(s, t) <==> IndexOf(s, t) >= 0
  {
    if Contains(s, t) {
      var i := ContainsOccurs(s, t);
      assert OccursAt(s, t, i);
    }
    if IndexOf(s, t) >= 0 {
      ContainsAt(s, t, IndexOf(s, t));
    }
  }

  /** Text that contains `t + u` contains `t`. */
  lemma {:induction false} ContainsPrefix(s: string, t: string, u: string)
    requires Contains(s, t + u)
    ensures Contains(s, t)
    decreases |s|
  {
    if t + u <= s {
      assert s[..|t|] == (t + u)[..|t|] == t;
    } else {
      ContainsPrefix(s[1..], t, u);
    }
  }

  /** `indexOf(c)` for a single character. */
  function FirstIndex(s: string, c: char): (r: int)
    ensures -1 <= r < |s|
    ensures r >= 0 ==> s[r] == c
    ensures forall j :: 0 <= j < (if r == -1 then |s| else r) ==> s[j] != c
  {
    if s == [] then -1
    else if s[0] == c then 0
    else var k := FirstIndex(s[1..], c); if k == -1 then -1 else k + 1
  }

  /** `lastIndexOf(c)` for a single character. */
  function LastIndex(s: string, c: char): (r: int)
    ensures -1 <= r < |s|
    ensures r >= 0 ==> s[r] == c
    ensures forall j :: r < j < |s| ==> s[j] != c
  {
    if s == [] then -1
    else if s[|s| - 1] == c then |s| - 1
    else LastIndex(s[..|s| - 1], c)
  }

  // ---------------------------------------------------------------- slicing

  /** `substring(0, n)` and `slice(0, n)`. */
  function Take<T>(s: seq<T>, n: nat): (r: seq<T>)
    ensures r <= s && |r| == Min(n, |s|)
  {
    if |s| <= n then s else s[..n]
  }

  /** `slice(-n)` of an array, for n > 0: the last n elements (all of them when there are fewer). */
  function Last<T>(s: seq<T>, n: nat): (r: seq<T>)
    ensures |r| == Min(n, |s|)
    ensures |s| <= n ==> r == s
    decreases |s|
  {
    if |s| <= n then s else Last(s[1..], n)
  }

  // ---------------------------------------------------------------- split and join

  /** `Array.prototype.join(sep)`. */
  function Join(parts: seq<string>, sep: string): string {
    if |parts| == 0 then ""
    else if |parts| == 1 then parts[0]
    else parts[0] + sep + Join(parts[1..], sep)
  }

  /** `split(sep)` for a one-character separator: the maximal pieces between separators. */
  function Split(s: string, sep: char): (parts: seq<string>)
    ensures |parts| >= 1
    ensures forall k :: 0 <= k < |parts| ==> sep !in parts[k]
    ensures Join(parts, [sep]) == s
    decreases |s|
  {
    var i := FirstIndex(s, sep);
    if i < 0 then
      assert forall j :: 0 <= j < |s| ==> s[j] != sep;
      [s]
    else
      var rest := Split(s[i + 1..], sep);
      assert sep !in s[..i] by {
        forall j | 0 <= j < i ensures s[..i][j] != sep { }
      }
      calc {
        Join([s[..i]] + rest, [sep]);
        s[..i] + [sep] + Join(rest, [sep]);
        { assert s == s[..i] + [sep] + s[i + 1..]; }
        s;
      }
      [s[..i]] + rest
  }

  /** Splitting a join restores the pieces, when none of them holds the separator. */
  lemma {:induction false} SplitJoin(parts: seq<string>, sep: char)
    requires |parts| >= 1
    requires forall k :: 0 <= k < |parts| ==> sep !in parts[k]
    ensures Split(Join(parts, [sep]), sep) == parts
    decreases |parts|
  {
    var p := parts[0];
    var i := FirstIndex(p, sep);
    assert i == -1;
    if |parts| == 1 {
    } else {
      var rest := Join(parts[1..], [sep]);
      var s := p + [sep] + rest;
      assert Join(parts, [sep]) == s;
      assert FirstIndex(s, sep) == |p| by { FirstIndexPast(p, sep, rest); }
      assert s[..|p|] == p;
      assert s[|p| + 1..] == rest;
      SplitJoin(parts[1..], sep);
      assert parts == [p] + parts[1..];
    }
  }

  lemma {:induction false} FirstIndexPast(p: string, sep: char, rest: string)
    requires sep !in p
    ensures FirstIndex(p + [sep] + rest, sep) == |p|
    decreases |p|
  {
    if p != [] {
      assert (p + [sep] + rest)[1..] == p[1..] + [sep] + rest;
      FirstIndexPast(p[1..], sep, rest);
    }
  }

  /** The number of occurrences of `c` in `s`. */
  function Count(s: string, c: char): nat {
    if s == [] then 0 else (if s[0] == c then 1 else 0) + Count(s[1..], c)
  }

  /** `split` yields one piece more than there are separators. */
  lemma {:induction false} SplitCount(s: string, sep: char)
    ensures |Split(s, sep)| == Count(s, sep) + 1
    decreases |s|
  {
    var i := FirstIndex(s, sep);
    if i < 0 {
      CountAbsent(s, sep);
    } else {
      SplitCount(s[i + 1..], sep);
      CountAbsent(s[..i], sep);
      CountAppend(s[..i], [sep] + s[i + 1..], sep);
      assert s == s[..i] + ([sep] + s[i + 1..]);
      assert ([sep] + s[i + 1..])[1..] == s[i + 1..];
    }
  }

  lemma {:induction false} CountAbsent(s: string, c: char)
    requires forall j :: 0 <= j < |s| ==> s[j] != c
    ensures Count(s, c) == 0
    decreases |s|
  {
    if s != [] { CountAbsent(s[1..], c); }
  }

  lemma {:induction false} CountAppend(a: string, b: string, c: char)
    ensures Count(a + b, c) == Count(a, c) + Count(b, c)
    decreases |a|
  {
    if a == [] {
      assert a + b == b;
    } else {
      assert (a + b)[0] == a[0];
      assert (a + b)[1..] == a[1..] + b;
      CountAppend(a[1..], b, c);
    }
  }

  // ---------------------------------------------------------------- replacing

  /** `replace(/c/g, "")`: `s` with every occurrence of `c` removed. */
  function RemoveAll(s: string, c: char): (r: string)
    ensures c !in r
    ensures multiset(r) == multiset(s)[c := 0]
    ensures c !in s ==> r == s
  {
    if s == [] then ""
    else
      var rest := RemoveAll(s[1..], c);
      assert s == [s[0]] + s[1..];
      if s[0] == c then rest else [s[0]] + rest
  }

  /** `replace(/"/g, '""')`: every double quote doubled. */
  function DoubleQuotes(s: string): (r: string)
    ensures |r| == |s| + Count(s, '"')
  {
    if s == [] then ""
    else if s[0] == '"' then "\"\"" + DoubleQuotes(s[1..])
    else [s[0]] + DoubleQuotes(s[1..])
  }

  /**
   * `replace(/A|B/g, "")` for two literal alternatives: scanning from the left, an occurrence of
   * `a` is removed, else an occurrence of `b`, else one character is kept and the scan moves on.
   */
  function RemoveEither(s: string, a: string, b: string): (r: string)
    requires a != [] && b != []
    ensures |r| <= |s|
    decreases |s|
  {
    if s == [] then ""
    else if a <= s then RemoveEither(s[|a|..], a, b)
    else if b <= s then RemoveEither(s[|b|..], a, b)
    else [s[0]] + RemoveEither(s[1..], a, b)
  }

  /** Text in which neither alternative occurs is left as it is. */
  lemma {:induction false} RemoveEitherNone(s: string, a: string, b: string)
    requires a != [] && b != []
    requires !Contains(s, a) && !Contains(s, b)
    ensures RemoveEither(s, a, b) == s
    decreases |s|
  {
    if s != [] {
      assert !(a <= s) && !(b <= s);
      RemoveEitherNone(s[1..], a, b);
    }
  }

  /** An occurrence of `a` at the front is removed. */
  lemma RemoveEitherFirst(s: string, a: string, b: string)
    requires a != [] && b != [] && a <= s
    ensures RemoveEither(s, a, b) == RemoveEither(s[|a|..], a, b)
  {
  }

  /** Otherwise an occurrence of `b` at the front is removed. */
  lemma RemoveEitherSecond(s: string, a: string, b: string)
    requires a != [] && b != [] && !(a <= s) && b <= s
    ensures RemoveEither(s, a, b) == RemoveEither(s[|b|..], a, b)
  {
  }

  /** Otherwise the first character is kept. */
  lemma RemoveEitherKeeps(s: string, a: string, b: string)
    requires a != [] && b != [] && s != [] && !(a <= s) && !(b <= s)
    ensures RemoveEither(s, a, b) == [s[0]] + RemoveEither(s[1..], a, b)
  {
  }

  // ---------------------------------------------------------------- numbers

  function DigitChar(d: nat): char
    requires d < 10
  {
    "0123456789"[d]
  }

  /** The decimal rendering of a natural number (`String(n)`). */
  function NatToString(n: nat): (r: string)
    ensures r != []
  {
    if n < 10 then [DigitChar(n)] else NatToString(n / 10) + [DigitChar(n % 10)]
  }

  /** The rendering is made of decimal digits, with no leading zero. */
  lemma {:induction false} NatToStringDigits(n: nat)
    ensures forall i :: 0 <= i < |NatToString(n)| ==> '0' <= NatToString(n)[i] <= '9'
    ensures n > 0 ==> NatToString(n)[0] != '0'
  {
    if n >= 10 {
      NatToStringDigits(n / 10);
    }
  }

  /** The decimal rendering of an integer (`String(n)`, `${n}`). */
  function IntToString(n: int): string {
    if n < 0 then "-" + NatToString(-n) else NatToString(n)
  }

  /** The value of `c` as a digit of radix `radix` (10 or 16), or -1 when it is not one. */
  function DigitValue(c: char, radix: nat): int {
    var v :=
      if '0' <= c <= '9' then c as int - '0' as int
      else if 'a' <= c <= 'z' then c as int - 'a' as int + 10
      else if 'A' <= c <= 'Z' then c as int - 'A' as int + 10
      else -1;
    if 0 <= v < radix then v else -1
  }

  /** The longest prefix of `s` made of digits of radix `radix`. */
  function DigitPrefix(s: string, radix: nat): (r: string)
    ensures r <= s
    ensures forall i :: 0 <= i < |r| ==> DigitValue(r[i], radix) >= 0
    ensures |r| < |s| ==> DigitValue(s[|r|], radix) < 0
  {
    if s != [] && DigitValue(s[0], radix) >= 0 then [s[0]] + DigitPrefix(s[1..], radix) else ""
  }

  /** The value of a digit string read most significant digit first. */
  function DigitsValue(ds: string, radix: nat): nat
    requires forall i :: 0 <= i < |ds| ==> DigitValue(ds[i], radix) >= 0
  {
    if ds == [] then 0
    else DigitsValue(ds[..|ds| - 1], radix) * radix + DigitValue(ds[|ds| - 1], radix)
  }

  /**
   * `Number.parseInt(s)` with no radix, `None` standing for NaN: leading white space is skipped,
   * one sign is read, a `0x`/`0X` prefix selects radix 16, and the longest digit prefix is read.
   */
  function ParseInt(s: string): Option<int> {
    var t := TrimStart(s);
    if t != [] && t[0] == '-' then
      match ParseUnsigned(t[1..])
      case Some(v) => Some(-v)
      case None => None
    else if t != [] && t[0] == '+' then ParseUnsigned(t[1..])
    else ParseUnsigned(t)
  }

  /** The unsigned part of `parseInt`: an optional hexadecimal prefix, then digits. */
  function ParseUnsigned(u: string): Option<int> {
    if |u| >= 2 && u[0] == '0' && (u[1] == 'x' || u[1] == 'X') then ReadDigits(u[2..], 16)
    else ReadDigits(u, 10)
  }

  function ReadDigits(u: string, radix: nat): Option<int> {
    var ds := DigitPrefix(u, radix);
    if ds == [] then None else Some(DigitsValue(ds, radix))
  }

  lemma {:induction false} DecimalValue(n: nat)
    ensures (NatToStringDigits(n); DigitsValue(NatToString(n), 10) == n)
  {
    if n >= 10 {
      var r := NatToString(n);
      assert r[..|r| - 1] == NatToString(n / 10);
      DecimalValue(n / 10);
    }
  }

  /** Reading back the decimal rendering of an integer gives that integer. */
  lemma ParseIntToString(n: int)
    ensures ParseInt(IntToString(n)) == Some(n)
  {
    var m: nat := if n < 0 then -n else n;
    var d := NatToString(m);
    UnsignedNat(m);
    if n < 0 {
      ParseMinus(IntToString(n), d);
    } else {
      assert '0' <= d[0] <= '9' by { NatToStringDigits(m); }
      ParsePlain(d);
    }
  }

  /** The decimal rendering of a natural number reads back as that number. */
  lemma UnsignedNat(m: nat)
    ensures ParseUnsigned(NatToString(m)) == Some(m)
  {
    var d := NatToString(m);
    NatToStringDigits(m);
    DecimalValue(m);
    AllDigitsPrefix(d);
    assert |d| >= 2 ==> d[1] != 'x' && d[1] != 'X';
  }

  /** Text that starts with a decimal digit reads as its unsigned part. */
  lemma ParsePlain(s: string)
    requires s != [] && '0' <= s[0] <= '9'
    ensures ParseInt(s) == ParseUnsigned(s)
  {
    assert !IsSpace(s[0]);
    assert TrimStart(s) == s;
  }

  /** Text that starts with a minus sign reads as the negated unsigned part after it. */
  lemma ParseMinus(s: string, u: string)
    requires s == "-" + u
    ensures ParseInt(s) == match ParseUnsigned(u) case Some(v) => Some(-v) case None => None
  {
    assert !IsSpace(s[0]);
    assert TrimStart(s) == s;
    assert s[1..] == u;
  }

  lemma {:induction false} AllDigitsPrefix(d: string)
    requires forall i :: 0 <= i < |d| ==> '0' <= d[i] <= '9'
    ensures DigitPrefix(d, 10) == d
    decreases |d|
  {
    if d != [] { AllDigitsPrefix(d[1..]); }
  }
}
