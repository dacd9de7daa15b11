/** ASCII lower-casing of names, and the name rule of session_mgr.rs. */
module Names {
  import opened Wrappers

  function LowerChar(c: char): char {
    if 'A' <= c <= 'Z' then ((c as int) - ('A' as int) + ('a' as int)) as char else c
  }

  function Lower(s: string): (r: string)
    ensures |r| == |s|
  {
    seq(|s|, i requires 0 <= i < |s| => LowerChar(s[i]))
  }

  predicate AllowedChar(c: char) {
    || 'a' <= c <= 'z' || 'A' <= c <= 'Z' || '0' <= c <= '9'
    || c == '.' || c == '_' || c == '-'
  }

  predicate AllowedName(s: string) {
    s != "" && forall i :: 0 <= i < |s| ==> AllowedChar(s[i])
  }

  function NormalizeName(s: string): Option<string> {
    if AllowedName(s) then Some(Lower(s)) else None
  }

  // The codes 65 to 90 go to 97 to 122, in order, and every other character stays.
  lemma LowerCodes(c: char)
    ensures LowerChar(c) as int == (c as int) + if 65 <= c as int <= 90 then 32 else 0
  {
  }

  // A name consists of at least one of the characters 48 to 57, 65 to 90, 97 to 122, 45, 46 and 95.
  lemma AllowedCodes(s: string)
    ensures NormalizeName(s).Some? <==>
              && |s| > 0
              && forall i :: 0 <= i < |s| ==>
                   var n := s[i] as int;
                   48 <= n <= 57 || 65 <= n <= 90 || 97 <= n <= 122 || n == 45 || n == 46 || n == 95
  {
  }

  // The characters are the same, or a letter and its other case.
  predicate SameUpToCase(c: char, d: char) {
    var m, n := c as int, d as int;
    m == n || (m + 32 == n && 65 <= m <= 90) || (n + 32 == m && 65 <= n <= 90)
  }

  // When two names are equal up to case, told without lower-casing them.
  lemma LowerEqualIff(a: string, b: string)
    ensures Lower(a) == Lower(b) <==> |a| == |b| && forall i :: 0 <= i < |a| ==> SameUpToCase(a[i], b[i])
  {
    if |a| == |b| {
      forall i | 0 <= i < |a| ensures Lower(a)[i] == Lower(b)[i] <==> SameUpToCase(a[i], b[i]) {
        LowerCodes(a[i]);
        LowerCodes(b[i]);
      }
    }
  }

  // Names equal up to case are both allowed or both refused, and have the same key.
  lemma CaseDoesNotMatter(a: string, b: string)
    requires Lower(a) == Lower(b)
    ensures NormalizeName(a) == NormalizeName(b)
  {
    assert |a| == |b|;
    forall i | 0 <= i < |a| ensures AllowedChar(a[i]) == AllowedChar(b[i]) {
      assert LowerChar(a[i]) == Lower(a)[i] == Lower(b)[i] == LowerChar(b[i]);
    }
  }
}
