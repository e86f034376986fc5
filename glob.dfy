/**
 * `fnmatch($pattern, $string)` with no flags: `*` matches any run of characters
 * (slashes and leading dots included), `?` any one character, `\x` the character x,
 * and every other character itself.
 */
module Glob {

  function Matches(pattern: string, s: string): bool
    decreases |pattern| + |s|
  {
    if pattern == [] then s == []
    else if pattern[0] == '*' then Matches(pattern[1..], s) || (s != [] && Matches(pattern, s[1..]))
    else if pattern[0] == '?' then s != [] && Matches(pattern[1..], s[1..])
    else if pattern[0] == '\\' && |pattern| >= 2 then s != [] && s[0] == pattern[1] && Matches(pattern[2..], s[1..])
    else s != [] && s[0] == pattern[0] && Matches(pattern[1..], s[1..])
  }

  /** A pattern without `*`, `?` and `\`. */
  predicate Literal(pattern: string) {
    '*' !in pattern && '?' !in pattern && '\\' !in pattern
  }

  /** A literal pattern matches exactly the string equal to it. */
  lemma {:induction false} LiteralMatchesItselfOnly(pattern: string, s: string)
    requires Literal(pattern)
    ensures Matches(pattern, s) <==> pattern == s
  {
    if pattern != [] && s != [] {
      LiteralMatchesItselfOnly(pattern[1..], s[1..]);
      if pattern == s {
        assert pattern[1..] == s[1..];
      } else if pattern[0] == s[0] {
        assert pattern == [pattern[0]] + pattern[1..] && s == [s[0]] + s[1..];
      }
    }
  }

  /** `*` matches every string, so a server named `*` is merged into every server. */
  lemma {:induction false} StarMatchesAll(s: string)
    ensures Matches("*", s)
  {
    if s != [] {
      StarMatchesAll(s[1..]);
    }
  }

  /** A pattern `p*` matches exactly the strings that start with the literal p. */
  lemma {:induction false} PrefixStar(p: string, s: string)
    requires Literal(p)
    ensures Matches(p + "*", s) <==> p <= s
  {
    if p == [] {
      assert p + "*" == "*";
      StarMatchesAll(s);
    } else if s != [] {
      assert (p + "*")[1..] == p[1..] + "*";
      PrefixStar(p[1..], s[1..]);
    }
  }
}
