/** The pieces of the JavaScript runtime the core relies on: truthiness of an
    optional string, template-literal interpolation, the `\w` character class,
    `String(n)` for a whole number, and node's POSIX `path.basename`. */
module Js {
  import opened Wrappers

  /** `!!v` for a string that may be undefined: present and not empty. */
  predicate Truthy(v: Option<string>)
    ensures v.None? ==> !Truthy(v)
    ensures v == Some("") ==> !Truthy(v)
    ensures v.Some? && |v.value| > 0 ==> Truthy(v)
  {
    v.Some? && v.value != ""
  }

  /** The text `${v}` produces: the string itself, or "undefined". */
  function Interpolate(v: Option<string>): (r: string)
    ensures v.Some? ==> r == v.value
    ensures v.None? ==> r == "undefined"
  {
    if v.Some? then v.value else "undefined"
  }

  /** Membership in the regular-expression class `\w`, that is `[A-Za-z0-9_]`. */
  predicate IsWordChar(c: char) {
    ('a' <= c <= 'z') || ('A' <= c <= 'Z') || ('0' <= c <= '9') || c == '_'
  }

  predicate IsDigit(c: char) {
    '0' <= c <= '9'
  }

  predicate AllDigits(s: string) {
    forall i :: 0 <= i < |s| ==> IsDigit(s[i])
  }

  predicate StartsWith(s: string, prefix: string) {
    |prefix| <= |s| && s[..|prefix|] == prefix
  }

  predicate EndsWith(s: string, suffix: string) {
    |suffix| <= |s| && s[|s| - |suffix|..] == suffix
  }

  function Digit(d: nat): (c: char)
    requires d < 10
    ensures IsDigit(c) && c as int - '0' as int == d
  {
    ('0' as int + d) as char
  }

  /** `String(n)` for a non-negative whole number such as `Date.now()`:
      decimal digits, with a leading zero only for zero itself. */
  function NumberText(n: nat): (s: string)
    ensures |s| >= 1 && AllDigits(s)
    ensures s[0] == '0' <==> n == 0
  {
    if n < 10 then [Digit(n)] else NumberText(n / 10) + [Digit(n % 10)]
  }

  /** The number a string of decimal digits denotes; the inverse of NumberText. */
  function DigitsValue(s: string): nat
    requires AllDigits(s)
  {
    if s == [] then 0 else 10 * DigitsValue(s[..|s| - 1]) + (s[|s| - 1] as int - '0' as int)
  }

  lemma {:induction false} DigitsValueOfNumberText(n: nat)
    ensures DigitsValue(NumberText(n)) == n
  {
    if n >= 10 {
      var s := NumberText(n);
      assert s[..|s| - 1] == NumberText(n / 10);
      DigitsValueOfNumberText(n / 10);
    }
  }

  /** `s` without the run of `c` at its end. */
  function TrimEnd(s: string, c: char): (r: string)
    ensures |r| <= |s| && r == s[..|r|]
    ensures r == [] || r[|r| - 1] != c
    ensures forall i :: |r| <= i < |s| ==> s[i] == c
  {
    if s != [] && s[|s| - 1] == c then TrimEnd(s[..|s| - 1], c) else s
  }

  /** The part of `s` after its last `c`; all of `s` when `c` does not occur. */
  function AfterLast(s: string, c: char): (r: string)
    ensures |r| <= |s| && r == s[|s| - |r|..]
    ensures c !in r
    ensures |r| < |s| ==> s[|s| - |r| - 1] == c
  {
    if s == [] || s[|s| - 1] == c then [] else AfterLast(s[..|s| - 1], c) + [s[|s| - 1]]
  }

  /** Whatever precedes the last separator, the part after it is recovered. */
  lemma {:induction false} AfterLastOfJoin(x: string, c: char, y: string)
    requires c !in y
    ensures AfterLast(x + [c] + y, c) == y
  {
    var s := x + [c] + y;
    if y != [] {
      assert y[|y| - 1] in y;
      assert s[..|s| - 1] == x + [c] + y[..|y| - 1];
      AfterLastOfJoin(x, c, y[..|y| - 1]);
    }
  }

  /** node's `path.basename(p)` on POSIX: the last segment, trailing separators ignored. */
  function Basename(p: string): (r: string)
    ensures '/' !in r
  {
    AfterLast(TrimEnd(p, '/'), '/')
  }

  /** A segment appended after a separator is what `path.basename` gives back. */
  lemma BasenameOfJoin(dir: string, name: string)
    requires name != [] && '/' !in name
    ensures Basename(dir + "/" + name) == name
  {
    var p := dir + "/" + name;
    assert p[|p| - 1] == name[|name| - 1];
    assert TrimEnd(p, '/') == p;
    assert dir + "/" + name == dir + ['/'] + name;
    AfterLastOfJoin(dir, '/', name);
  }
}
