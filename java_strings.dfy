/**
 * The two java.lang.String operations the JDBC configuration applies to a
 * dialect name: `trim()`, which strips every leading and trailing character
 * whose code is at most U+0020, and `toUpperCase()`, here restricted to the
 * ASCII letters.
 */
module JavaStrings {

  /** A character `trim()` strips: code point at most U+0020. */
  predicate IsTrimmable(c: char) {
    c <= ' '
  }

  /** `Character.toUpperCase` on the ASCII letters; every other character is kept. */
  function UpperChar(c: char): (u: char)
    ensures IsTrimmable(u) <==> IsTrimmable(c)
  {
    if 'a' <= c <= 'z' then (c as int - 32) as char else c
  }

  function ToUpper(s: string): (r: string)
    ensures |r| == |s|
    ensures forall i :: 0 <= i < |s| ==> r[i] == UpperChar(s[i])
  {
    if s == [] then [] else [UpperChar(s[0])] + ToUpper(s[1..])
  }

  /** s without its leading trimmable characters. */
  function TrimStart(s: string): (r: string)
    ensures |r| <= |s| && r == s[|s| - |r|..]
    ensures forall i :: 0 <= i < |s| - |r| ==> IsTrimmable(s[i])
    ensures r == [] || !IsTrimmable(r[0])
  {
    if s != [] && IsTrimmable(s[0]) then TrimStart(s[1..]) else s
  }

  /** s without its trailing trimmable characters. */
  function TrimEnd(s: string): (r: string)
    ensures |r| <= |s| && r == s[..|r|]
    ensures forall i :: |r| <= i < |s| ==> IsTrimmable(s[i])
    ensures r == [] || !IsTrimmable(r[|r| - 1])
  {
    if s != [] && IsTrimmable(s[|s| - 1]) then TrimEnd(s[..|s| - 1]) else s
  }

  /** `String.trim()`. */
  function Trim(s: string): (r: string)
    ensures |r| <= |s|
  {
    TrimEnd(TrimStart(s))
  }

  lemma UpperPrefix(s: string, n: nat)
    requires n <= |s|
    ensures ToUpper(s[..n]) == ToUpper(s)[..n]
  {
  }

  lemma UpperSuffix(s: string, n: nat)
    requires n <= |s|
    ensures ToUpper(s[n..]) == ToUpper(s)[n..]
  {
  }

  lemma {:induction false} UpperTrimStart(s: string)
    ensures TrimStart(ToUpper(s)) == ToUpper(TrimStart(s))
    decreases |s|
  {
    if s != [] {
      UpperSuffix(s, 1);
      if IsTrimmable(s[0]) {
        UpperTrimStart(s[1..]);
      }
    }
  }

  lemma {:induction false} UpperTrimEnd(s: string)
    ensures TrimEnd(ToUpper(s)) == ToUpper(TrimEnd(s))
    decreases |s|
  {
    if s != [] {
      UpperPrefix(s, |s| - 1);
      if IsTrimmable(s[|s| - 1]) {
        UpperTrimEnd(s[..|s| - 1]);
      }
    }
  }

  /** Upper-casing and trimming commute: `s.toUpperCase().trim()` is `s.trim().toUpperCase()`. */
  lemma UpperTrimCommute(s: string)
    ensures Trim(ToUpper(s)) == ToUpper(Trim(s))
  {
    UpperTrimStart(s);
    UpperTrimEnd(TrimStart(s));
  }
}
