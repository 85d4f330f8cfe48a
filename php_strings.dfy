/**
 * The PHP string built-ins the plugin relies on, restricted to what they do on
 * ASCII: `strtoupper`, `strtolower` and `str_replace("-", "_", ...)`. The case
 * functions are modelled as PHP 8.2 and later define them, locale-insensitive, so
 * only `a`-`z` and `A`-`Z` change (under PHP 8.0 and 8.1 the same holds while
 * `LC_CTYPE` is the default "C" locale).
 */
module PhpStrings {

  predicate IsLowerAscii(c: char) {
    'a' <= c <= 'z'
  }

  predicate IsUpperAscii(c: char) {
    'A' <= c <= 'Z'
  }

  /** One character through `strtoupper`. */
  function UpperChar(c: char): (u: char)
    ensures !IsLowerAscii(u)
    ensures IsUpperAscii(u) <==> IsUpperAscii(c) || IsLowerAscii(c)
    ensures !IsLowerAscii(c) ==> u == c
    ensures IsLowerAscii(c) ==> u as int - 'A' as int == c as int - 'a' as int
  {
    if IsLowerAscii(c) then (c as int - 32) as char else c
  }

  /** One character through `strtolower`. */
  function LowerChar(c: char): (l: char)
    ensures !IsUpperAscii(l)
    ensures IsLowerAscii(l) <==> IsUpperAscii(c) || IsLowerAscii(c)
    ensures !IsUpperAscii(c) ==> l == c
    ensures IsUpperAscii(c) ==> l as int - 'a' as int == c as int - 'A' as int
  {
    if IsUpperAscii(c) then (c as int + 32) as char else c
  }

  /** Upper-casing forgets the case a letter had: both cases of a letter agree after it. */
  lemma UpperOfLower(c: char)
    ensures UpperChar(LowerChar(c)) == UpperChar(c)
  {
    if IsUpperAscii(c) {
      assert LowerChar(c) as int == c as int + 32;
    }
  }

  /** `strtoupper`: every character through UpperChar, nothing added, dropped or moved. */
  function ToUpper(s: string): (r: string)
    ensures |r| == |s|
    ensures forall i :: 0 <= i < |s| ==> r[i] == UpperChar(s[i])
  {
    if s == [] then [] else [UpperChar(s[0])] + ToUpper(s[1..])
  }

  /** `strtolower`: every character through LowerChar, nothing added, dropped or moved. */
  function ToLower(s: string): (r: string)
    ensures |r| == |s|
    ensures forall i :: 0 <= i < |s| ==> r[i] == LowerChar(s[i])
  {
    if s == [] then [] else [LowerChar(s[0])] + ToLower(s[1..])
  }

  /** `str_replace("-", "_", s)`: every dash becomes an underscore, every other character stays. */
  function DashesToUnderscores(s: string): (r: string)
    ensures |r| == |s|
    ensures forall i :: 0 <= i < |s| ==> r[i] == (if s[i] == '-' then '_' else s[i])
    ensures '-' !in r
  {
    if s == [] then []
    else [if s[0] == '-' then '_' else s[0]] + DashesToUnderscores(s[1..])
  }

  /** A lower-cased string has no upper-case ASCII letter, and lower-casing it again changes nothing. */
  lemma ToLowerIdempotent(s: string)
    ensures ToLower(ToLower(s)) == ToLower(s)
    ensures forall i :: 0 <= i < |s| ==> !IsUpperAscii(ToLower(s)[i])
  {
  }

  /** Because `-` is not a letter, replacing dashes and upper-casing commute. */
  lemma UpperAndReplaceCommute(s: string)
    ensures DashesToUnderscores(ToUpper(s)) == ToUpper(DashesToUnderscores(s))
  {
  }
}
