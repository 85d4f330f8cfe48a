/**
 * `getHeader`: the configured HTTP header name turned into the key PHP uses for
 * that header in `$_SERVER`. This is the CGI meta-variable rule of section
 * 4.1.18 of RFC 3875: upper-case the field name, turn `-` into `_`, prefix `HTTP_`.
 */
module HeaderName {
  import opened PhpStrings

  const Prefix: string := "HTTP_"

  /** The key one character of a header name takes in a `$_SERVER` key. */
  function MetaChar(c: char): (m: char)
    ensures m != '-' && !IsLowerAscii(m)
    ensures c == '-' ==> m == '_'
    ensures c != '-' ==> m == UpperChar(c)
  {
    if c == '-' then '_' else UpperChar(c)
  }

  /** `getHeader`, given the value of the `datawiza-jwt-header` option. */
  function GetHeader(configured: string): (key: string)
    ensures |key| == |Prefix| + |configured|
    ensures key[..|Prefix|] == Prefix
    ensures '-' !in key
    ensures forall i :: 0 <= i < |key| ==> !IsLowerAscii(key[i])
    ensures forall i :: 0 <= i < |configured| ==> key[|Prefix| + i] == MetaChar(configured[i])
    ensures forall i :: 0 <= i < |configured| && !IsLowerAscii(configured[i]) && configured[i] != '-' ==>
              key[|Prefix| + i] == configured[i]
  {
    Prefix + DashesToUnderscores(ToUpper(configured))
  }

  /**
   * Two header names are the same to the CGI rule when they agree character by
   * character once case and the dash/underscore distinction are ignored.
   */
  predicate SameMetaName(a: string, b: string) {
    |a| == |b| && forall i :: 0 <= i < |a| ==> MetaChar(a[i]) == MetaChar(b[i])
  }

  /** Two configured names select the same `$_SERVER` entry exactly when they are the same meta-name. */
  lemma GetHeaderCollides(a: string, b: string)
    ensures GetHeader(a) == GetHeader(b) <==> SameMetaName(a, b)
  {
    if GetHeader(a) == GetHeader(b) {
      forall i | 0 <= i < |a|
        ensures MetaChar(a[i]) == MetaChar(b[i])
      {
        assert GetHeader(a)[|Prefix| + i] == GetHeader(b)[|Prefix| + i];
      }
    }
    if SameMetaName(a, b) {
      assert forall i :: 0 <= i < |GetHeader(a)| ==> GetHeader(a)[i] == GetHeader(b)[i];
    }
  }

  /** Header names are case-insensitive: any casing of the configured name selects the same entry. */
  lemma GetHeaderIgnoresCase(name: string)
    ensures GetHeader(ToLower(name)) == GetHeader(name)
    ensures GetHeader(ToUpper(name)) == GetHeader(name)
  {
    forall i | 0 <= i < |name|
      ensures MetaChar(ToLower(name)[i]) == MetaChar(name[i])
      ensures MetaChar(ToUpper(name)[i]) == MetaChar(name[i])
    {
      UpperOfLower(name[i]);
    }
    assert SameMetaName(ToLower(name), name);
    assert SameMetaName(ToUpper(name), name);
    GetHeaderCollides(ToLower(name), name);
    GetHeaderCollides(ToUpper(name), name);
  }

  /** A configured `X-Jwt` and `x_jwt` read the same `$_SERVER` entry: nothing can tell them apart. */
  lemma DashAndUnderscoreCollide()
    ensures GetHeader("X-Jwt") == GetHeader("x_jwt")
  {
    GetHeaderCollides("X-Jwt", "x_jwt");
  }
}
