/** String primitives of PHP that the importer relies on: trim(), the
    truthiness of a string under `?:` and `!`, the decimal form of an int,
    strtolower() on ASCII and pathinfo()'s extension. */
module Strings {

  datatype Option<T> = None | Some(value: T)

  /** A value, or the message of the exception that replaced it. */
  datatype Result<T> = Success(value: T) | Failure(error: string)

  /** The characters PHP's trim() strips by default: " \t\n\r\0\x0B". */
  predicate IsTrimSpace(c: char) {
    c == ' ' || c == '\t' || c == '\n' || c == '\r' || c == '\0' || c == '\U{B}'
  }

  /** No trim character at either end. */
  predicate IsTrimmed(s: string) {
    s == [] || (!IsTrimSpace(s[0]) && !IsTrimSpace(s[|s| - 1]))
  }

  predicate AllTrimSpace(s: string) {
    forall k :: 0 <= k < |s| ==> IsTrimSpace(s[k])
  }

  /** PHP ltrim(): drops leading trim characters. */
  function TrimLeft(s: string): string {
    if s != [] && IsTrimSpace(s[0]) then TrimLeft(s[1..]) else s
  }

  /** ltrim() leaves a suffix, drops only trim characters, and stops at the
      first character that is not one. */
  lemma {:induction false} TrimLeftSpec(s: string)
    ensures var r := TrimLeft(s);
      && |r| <= |s| && r == s[|s| - |r|..]
      && AllTrimSpace(s[..|s| - |r|])
      && (r == [] || !IsTrimSpace(r[0]))
  {
    if s != [] && IsTrimSpace(s[0]) {
      TrimLeftSpec(s[1..]);
      var r := TrimLeft(s);
      assert s[..|s| - |r|] == [s[0]] + s[1..][..|s| - 1 - |r|];
    }
  }

  /** PHP rtrim(): drops trailing trim characters. */
  function TrimRight(s: string): string {
    if s != [] && IsTrimSpace(s[|s| - 1]) then TrimRight(s[..|s| - 1]) else s
  }

  /** rtrim() leaves a prefix, drops only trim characters, and stops at the
      last character that is not one. */
  lemma {:induction false} TrimRightSpec(s: string)
    ensures var r := TrimRight(s);
      && |r| <= |s| && r == s[..|r|]
      && AllTrimSpace(s[|r|..])
      && (r == [] || !IsTrimSpace(r[|r| - 1]))
  {
    if s != [] && IsTrimSpace(s[|s| - 1]) {
      var n := |s| - 1;
      TrimRightSpec(s[..n]);
      var r := TrimRight(s);
      assert s[|r|..] == s[..n][|r|..] + [s[n]];
    }
  }

  /** PHP trim(). */
  function Trim(s: string): (r: string)
    ensures IsTrimmed(r) && |r| <= |s|
  {
    TrimLeftSpec(s);
    TrimRightSpec(TrimLeft(s));
    TrimRight(TrimLeft(s))
  }

  /** ltrim() of nothing but trim characters is empty. */
  lemma {:induction false} TrimLeftAllSpace(s: string)
    requires AllTrimSpace(s)
    ensures TrimLeft(s) == []
  {
    if s != [] {
      TrimLeftAllSpace(s[1..]);
    }
  }

  /** ltrim() drops exactly a leading run of trim characters. */
  lemma {:induction false} TrimLeftPadded(p: string, r: string)
    requires AllTrimSpace(p) && (r == [] || !IsTrimSpace(r[0]))
    ensures TrimLeft(p + r) == r
  {
    if p != [] {
      assert (p + r)[1..] == p[1..] + r;
      TrimLeftPadded(p[1..], r);
    }
  }

  /** rtrim() drops exactly a trailing run of trim characters. */
  lemma {:induction false} TrimRightPadded(r: string, q: string)
    requires AllTrimSpace(q) && (r == [] || !IsTrimSpace(r[|r| - 1]))
    ensures TrimRight(r + q) == r
  {
    if q != [] {
      var n := |q| - 1;
      assert (r + q)[..|r| + n] == r + q[..n];
      TrimRightPadded(r, q[..n]);
    }
  }

  /** Trim removes exactly the padding: whatever trim characters surround a
      trimmed core, the core is what comes back. */
  lemma {:induction false} TrimOfPadded(p: string, m: string, q: string)
    requires AllTrimSpace(p) && AllTrimSpace(q) && IsTrimmed(m)
    ensures Trim(p + m + q) == m
  {
    var s := p + m + q;
    if m == [] {
      assert AllTrimSpace(s) by {
        forall k | 0 <= k < |s| ensures s[k] == if k < |p| then p[k] else q[k - |p|] { }
      }
      TrimLeftAllSpace(s);
    } else {
      assert s == p + (m + q);
      TrimLeftPadded(p, m + q);
      TrimRightPadded(m, q);
    }
  }

  /** Trimming an already trimmed string changes nothing. */
  lemma {:induction false} TrimTrimmed(s: string)
    requires IsTrimmed(s)
    ensures Trim(s) == s
  {
    TrimOfPadded([], s, []);
    assert [] + s + [] == s;
  }

  /** Trim is idempotent. */
  lemma {:induction false} TrimIdempotent(s: string)
    ensures Trim(Trim(s)) == Trim(s)
  {
    TrimTrimmed(Trim(s));
  }

  /** PHP truthiness of a string: "" and "0" are falsy, so `$a ?: $b`
      yields $b for both. */
  predicate Truthy(s: string) {
    s != "" && s != "0"
  }

  /** The string PHP's `(string)` cast and sprintf's `%d` give for a
      non-negative int. */
  function NatToString(n: nat): (r: string)
    ensures IsDigits(r)
  {
    if n < 10 then [DigitChar(n)] else NatToString(n / 10) + [DigitChar(n % 10)]
  }

  /** The decimal text is never empty and has no leading zero. */
  lemma {:induction false} NatToStringCanonical(n: nat)
    ensures NatToString(n) != []
    ensures |NatToString(n)| > 1 ==> NatToString(n)[0] != '0'
  {
    if n >= 10 {
      NatToStringCanonical(n / 10);
    }
  }

  function DigitChar(d: nat): (c: char)
    requires d < 10
  {
    (48 + d) as char
  }

  predicate IsDigits(s: string) {
    forall k :: 0 <= k < |s| ==> '0' <= s[k] <= '9'
  }

  /** The number a string of decimal digits denotes. */
  function DigitsValue(s: string): nat
    requires IsDigits(s)
  {
    if s == [] then 0 else 10 * DigitsValue(s[..|s| - 1]) + (s[|s| - 1] as int - 48)
  }

  /** The decimal text of a number reads back as that number. */
  lemma {:induction false} NatToStringRoundTrip(n: nat)
    ensures DigitsValue(NatToString(n)) == n
  {
    var r := NatToString(n);
    if n >= 10 {
      NatToStringRoundTrip(n / 10);
      assert r[..|r| - 1] == NatToString(n / 10);
    }
  }

  /** Distinct numbers have distinct decimal texts. */
  lemma {:induction false} NatToStringInjective(a: nat, b: nat)
    requires NatToString(a) == NatToString(b)
    ensures a == b
  {
    NatToStringRoundTrip(a);
    NatToStringRoundTrip(b);
  }

  /** strtolower() on ASCII letters; every other character is unchanged. */
  function LowerChar(c: char): char {
    if 'A' <= c <= 'Z' then (c as int + 32) as char else c
  }

  function Lower(s: string): (r: string)
    ensures |r| == |s|
  {
    if s == [] then [] else Lower(s[..|s| - 1]) + [LowerChar(s[|s| - 1])]
  }

  /** The part after the last '.' of the last path component, if that
      component has a '.' at all. */
  function DotSuffix(p: string): (r: Option<string>)
    ensures r.Some? ==> '.' !in r.value && '/' !in r.value
    ensures r.Some? ==> |r.value| < |p| && p[|p| - |r.value| - 1] == '.' && p[|p| - |r.value|..] == r.value
  {
    if p == [] then None
    else
      var c := p[|p| - 1];
      if c == '.' then Some([])
      else if c == '/' then None
      else match DotSuffix(p[..|p| - 1])
        case None => None
        case Some(e) => Some(e + [c])
  }

  /** The path without its trailing '/' characters, as basename() drops
      them before it takes the last component. */
  function WithoutTrailingSlashes(p: string): (r: string)
    ensures |r| <= |p| && r == p[..|r|]
    ensures forall i :: |r| <= i < |p| ==> p[i] == '/'
    ensures r == [] || r[|r| - 1] != '/'
  {
    if p != [] && p[|p| - 1] == '/' then WithoutTrailingSlashes(p[..|p| - 1]) else p
  }

  /** pathinfo($path, PATHINFO_EXTENSION): the part after the last '.' of
      basename($path), and "" when that component has no '.'. */
  function Extension(path: string): (r: string)
    ensures '.' !in r && '/' !in r
    ensures var q := WithoutTrailingSlashes(path);
      r != [] ==> |r| < |q| && q[|q| - |r| - 1] == '.' && q[|q| - |r|..] == r
  {
    match DotSuffix(WithoutTrailingSlashes(path))
    case None => ""
    case Some(e) => e
  }

  /** A name ending in '.' followed by a dot- and slash-free tail has that
      tail as its extension, whatever comes before. */
  lemma {:induction false} ExtensionOfSuffix(stem: string, e: string)
    requires '.' !in e && '/' !in e
    ensures Extension(stem + "." + e) == e
  {
    var p := stem + "." + e;
    assert p[|p| - 1] != '/';
    DotSuffixOfSuffix(stem, e);
  }

  /** Trailing '/' characters do not change the extension: basename() of
      "d/a.xlsx/" is "a.xlsx". */
  lemma {:induction false} ExtensionIgnoresTrailingSlashes(p: string, slashes: string)
    requires forall i :: 0 <= i < |slashes| ==> slashes[i] == '/'
    ensures Extension(p + slashes) == Extension(p)
  {
    SlashesStripped(p, slashes);
  }

  lemma {:induction false} SlashesStripped(p: string, slashes: string)
    requires forall i :: 0 <= i < |slashes| ==> slashes[i] == '/'
    ensures WithoutTrailingSlashes(p + slashes) == WithoutTrailingSlashes(p)
  {
    if slashes != [] {
      var q := p + slashes;
      var s' := slashes[..|slashes| - 1];
      assert q[..|q| - 1] == p + s';
      SlashesStripped(p, s');
    } else {
      assert p + slashes == p;
    }
  }

  /** A path naming `stem.e` followed by one '/' has extension `e`. */
  lemma {:induction false} ExtensionOfDirectoryPath(stem: string, e: string)
    requires '.' !in e && '/' !in e
    ensures Extension(stem + "." + e + "/") == e
  {
    ExtensionIgnoresTrailingSlashes(stem + "." + e, "/");
    ExtensionOfSuffix(stem, e);
  }

  lemma {:induction false} DotSuffixOfSuffix(stem: string, e: string)
    requires '.' !in e && '/' !in e
    ensures DotSuffix(stem + "." + e) == Some(e)
  {
    var p := stem + "." + e;
    if e != [] {
      var e' := e[..|e| - 1];
      DotSuffixOfSuffix(stem, e');
      assert p[..|p| - 1] == stem + "." + e';
      assert e' + [e[|e| - 1]] == e;
    }
  }

  /** A path with no '.' at all has no extension. */
  lemma {:induction false} ExtensionWithoutDot(p: string)
    requires '.' !in p
    ensures Extension(p) == ""
  {
    var q := WithoutTrailingSlashes(p);
    assert forall i :: 0 <= i < |q| ==> q[i] == p[i];
    NoDotNoSuffix(q);
  }

  lemma {:induction false} NoDotNoSuffix(p: string)
    requires '.' !in p
    ensures DotSuffix(p) == None
  {
    if p != [] {
      NoDotNoSuffix(p[..|p| - 1]);
    }
  }
}
