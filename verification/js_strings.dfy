/**
  The few JavaScript string semantics the console relies on: truthiness of an
  optional string and the `||` fallback built on it, template-literal
  interpolation, `String.prototype.trim` and `String.prototype.toUpperCase`.
 */
module JsStrings {
  import opened Wrappers

  /** JavaScript truthiness of an optional string: present and not "". */
  predicate Truthy(o: Option<string>) {
    o.Some? && o.value != ""
  }

  /** The expression `o || fallback` for an optional string `o`. */
  function OrElse(o: Option<string>, fallback: string): string {
    if Truthy(o) then o.value else fallback
  }

  /** The interpolation `${o}` of a template literal: an absent value prints
      as the text "undefined". */
  function Interpolate(o: Option<string>): string {
    if o.Some? then o.value else "undefined"
  }

  // ---------------------------------------------------------------------
  // trim
  // ---------------------------------------------------------------------

  /** The characters `trim` removes: ECMAScript WhiteSpace and LineTerminator. */
  predicate IsWhitespace(c: char) {
    || c == '\t' || c == '\n' || c == '\U{000B}' || c == '\U{000C}' || c == '\r'
    || c == ' ' || c == '\U{00A0}' || c == '\U{1680}'
    || ('\U{2000}' <= c <= '\U{200A}')
    || c == '\U{2028}' || c == '\U{2029}' || c == '\U{202F}' || c == '\U{205F}'
    || c == '\U{3000}' || c == '\U{FEFF}'
  }

  /** Every character of `s` is whitespace (vacuously true of ""). */
  ghost predicate IsBlank(s: string) {
    forall i :: 0 <= i < |s| ==> IsWhitespace(s[i])
  }

  /** Drops the leading whitespace: the result is the suffix of `s` that
      starts at its first non-whitespace character. */
  function TrimStart(s: string): (r: string)
    ensures |r| <= |s| && r == s[|s| - |r|..]
    ensures IsBlank(s[..|s| - |r|])
    ensures r == [] || !IsWhitespace(r[0])
  {
    if s != [] && IsWhitespace(s[0]) then
      var r := TrimStart(s[1..]);
      assert s[..|s| - |r|] == [s[0]] + s[1..][..|s| - 1 - |r|];
      r
    else
      s
  }

  /** Drops the trailing whitespace: the result is the prefix of `s` that
      ends at its last non-whitespace character. */
  function TrimEnd(s: string): (r: string)
    ensures |r| <= |s| && r == s[..|r|]
    ensures IsBlank(s[|r|..])
    ensures r == [] || !IsWhitespace(r[|r| - 1])
  {
    if s != [] && IsWhitespace(s[|s| - 1]) then
      var r := TrimEnd(s[..|s| - 1]);
      assert s[|r|..] == s[..|s| - 1][|r|..] + [s[|s| - 1]];
      r
    else
      s
  }

  /** `String.prototype.trim`. */
  function Trim(s: string): string {
    TrimEnd(TrimStart(s))
  }

  /** `s.trim() === ''` holds exactly for the all-whitespace strings. */
  lemma TrimIsEmptyIffBlank(s: string)
    ensures Trim(s) == "" <==> IsBlank(s)
  {
    var t := TrimStart(s);
    var r := TrimEnd(t);
    if r == [] {
      assert t[|r|..] == t;
      if t == [] {
        assert s[..|s| - |t|] == s;
      }
    }
  }

  // ---------------------------------------------------------------------
  // toUpperCase
  // ---------------------------------------------------------------------

  /** The upper-case form of one character, as far as a lookup against
      upper-case ASCII keys can observe it. It is exact for ASCII and for
      every character whose upper-case form in the Unicode case mappings
      consists of ASCII letters only (sharp s, dotless i, long s and the
      Latin ligatures U+FB00..U+FB06). Any other character is kept as it is:
      its true upper-case form contains a non-ASCII character, and so does
      the kept character, so no ASCII key can match either way. */
  function UpperOf(c: char): string {
    if 'a' <= c <= 'z' then [(c as int - 32) as char]
    else if c == '\U{00DF}' then "SS"
    else if c == '\U{0131}' then "I"
    else if c == '\U{017F}' then "S"
    else if c == '\U{FB00}' then "FF"
    else if c == '\U{FB01}' then "FI"
    else if c == '\U{FB02}' then "FL"
    else if c == '\U{FB03}' then "FFI"
    else if c == '\U{FB04}' then "FFL"
    else if c == '\U{FB05}' || c == '\U{FB06}' then "ST"
    else [c]
  }

  /** `String.prototype.toUpperCase`, character by character. */
  function ToUpperCase(s: string): string {
    if s == [] then [] else UpperOf(s[0]) + ToUpperCase(s[1..])
  }

  lemma {:induction false} ToUpperCaseConcat(a: string, b: string)
    ensures ToUpperCase(a + b) == ToUpperCase(a) + ToUpperCase(b)
  {
    if a != [] {
      assert (a + b)[1..] == a[1..] + b;
      ToUpperCaseConcat(a[1..], b);
    } else {
      assert a + b == b;
    }
  }

  /** Every character `UpperOf` produces is its own upper-case form. */
  lemma UpperOfIsUpper(c: char)
    ensures ToUpperCase(UpperOf(c)) == UpperOf(c)
  {
    var u := UpperOf(c);
    if |u| == 1 {
      assert ToUpperCase(u) == UpperOf(u[0]) + ToUpperCase([]);
    } else if |u| == 2 {
      assert ToUpperCase(u) == UpperOf(u[0]) + ToUpperCase(u[1..]);
      assert ToUpperCase(u[1..]) == UpperOf(u[1]) + ToUpperCase([]);
    } else {
      assert ToUpperCase(u) == UpperOf(u[0]) + ToUpperCase(u[1..]);
      assert ToUpperCase(u[1..]) == UpperOf(u[1]) + ToUpperCase(u[2..]);
      assert ToUpperCase(u[2..]) == UpperOf(u[2]) + ToUpperCase([]);
    }
  }

  /** A string of upper-case ASCII letters is its own upper-case form. */
  lemma {:induction false} UpperAsciiIsFixed(s: string)
    requires forall i :: 0 <= i < |s| ==> 'A' <= s[i] <= 'Z'
    ensures ToUpperCase(s) == s
  {
    if s != [] {
      UpperAsciiIsFixed(s[1..]);
    }
  }

  /** Upper-casing twice is upper-casing once. */
  lemma {:induction false} ToUpperCaseIdempotent(s: string)
    ensures ToUpperCase(ToUpperCase(s)) == ToUpperCase(s)
  {
    if s != [] {
      ToUpperCaseConcat(UpperOf(s[0]), ToUpperCase(s[1..]));
      UpperOfIsUpper(s[0]);
      ToUpperCaseIdempotent(s[1..]);
    }
  }
}
