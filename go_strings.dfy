/**
 * The three functions of Go's `strings` package that the configuration
 * parser uses, over strings as sequences of characters.
 */
module GoStrings {

  /** strings.HasPrefix: s begins with prefix. */
  predicate HasPrefix(s: string, prefix: string)
  {
    |prefix| <= |s| && s[..|prefix|] == prefix
  }

  /** strings.TrimPrefix: s without a leading prefix; s itself when it does not begin with prefix. */
  function TrimPrefix(s: string, prefix: string): (r: string)
    ensures HasPrefix(s, prefix) ==> prefix + r == s
    ensures !HasPrefix(s, prefix) ==> r == s
  {
    if HasPrefix(s, prefix) then s[|prefix|..] else s
  }

  /**
   * strings.Split(s, sep)[0] for a one-character separator: the text before
   * the first sep, or the whole of s when sep does not occur in it.
   */
  function BeforeFirst(s: string, sep: char): string
  {
    if s == [] || s[0] == sep then [] else [s[0]] + BeforeFirst(s[1..], sep)
  }

  /**
   * The result is the part of s before the first sep: a prefix of s that
   * holds no sep and is followed by sep unless it is all of s.
   */
  lemma {:induction false} BeforeFirstSpec(s: string, sep: char)
    ensures HasPrefix(s, BeforeFirst(s, sep))
    ensures sep !in BeforeFirst(s, sep)
    ensures |BeforeFirst(s, sep)| < |s| ==> s[|BeforeFirst(s, sep)|] == sep
  {
    if s != [] && s[0] != sep {
      BeforeFirstSpec(s[1..], sep);
    }
  }

  /** The three properties of BeforeFirstSpec single out the result. */
  lemma BeforeFirstUnique(s: string, sep: char, r: string)
    requires HasPrefix(s, r) && sep !in r
    requires |r| < |s| ==> s[|r|] == sep
    ensures r == BeforeFirst(s, sep)
  {
    BeforeFirstSpec(s, sep);
  }

  /**
   * The text before the first sep equals key (which holds no sep) exactly
   * when s is key itself or begins with key followed by sep: an exact match
   * of the name, not a prefix match.
   */
  lemma BeforeFirstIs(s: string, sep: char, key: string)
    requires sep !in key
    ensures BeforeFirst(s, sep) == key <==> (s == key || HasPrefix(s, key + [sep]))
  {
    BeforeFirstSpec(s, sep);
    if s == key || HasPrefix(s, key + [sep]) {
      assert s[..|key|] == (key + [sep])[..|key|] == key by {
        if s != key { assert s[..|key|] == s[..|key| + 1][..|key|]; }
      }
      BeforeFirstUnique(s, sep, key);
    }
  }
}
