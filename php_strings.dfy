/**
 * The PHP string built-ins the configuration code relies on, on byte strings
 * modelled as `string`: `empty`, `strstr(.., .., true)`, `str_replace` with an
 * empty replacement, `explode` and `basename`.
 */
module PhpStrings {
  import opened Wrappers

  /** `empty($v)` for a value that is a string or null: null, "" and "0" are empty. */
  predicate Empty(v: Option<string>) {
    v.None? || v.value == "" || v.value == "0"
  }

  /** `strstr($s, $c, true)`: the part before the first occurrence of c, or false (None). */
  function StrStrBefore(s: string, c: char): (r: Option<string>)
    ensures r.None? <==> c !in s
    ensures r.Some? ==> |r.value| < |s| && s[..|r.value|] == r.value && s[|r.value|] == c && c !in r.value
  {
    if s == [] then None
    else if s[0] == c then Some([])
    else
      match StrStrBefore(s[1..], c)
      case None => None
      case Some(p) => Some([s[0]] + p)
  }

  /** `str_replace(array(' ', '\''), array(''), $s)`: every space and single quote removed. */
  function StripSpacesAndQuotes(s: string): (r: string)
    ensures forall ch :: ch in r <==> ch in s && ch != ' ' && ch != '\''
    ensures |r| <= |s|
  {
    if s == [] then []
    else if s[0] == ' ' || s[0] == '\'' then StripSpacesAndQuotes(s[1..])
    else [s[0]] + StripSpacesAndQuotes(s[1..])
  }

  /** Stripping distributes over concatenation: the characters are kept in order, one by one. */
  lemma {:induction false} StripAppend(a: string, b: string)
    ensures StripSpacesAndQuotes(a + b) == StripSpacesAndQuotes(a) + StripSpacesAndQuotes(b)
  {
    if a == [] {
      assert a + b == b;
    } else {
      assert (a + b)[0] == a[0];
      assert (a + b)[1..] == a[1..] + b;
      StripAppend(a[1..], b);
    }
  }

  /** A single character is dropped when it is a space or a quote and kept otherwise. */
  lemma StripOne(c: char)
    ensures StripSpacesAndQuotes([c]) == if c == ' ' || c == '\'' then [] else [c]
  {
    assert [c][1..] == [];
  }

  /** `implode($sep, $parts)`. */
  function Implode(sep: char, parts: seq<string>): string
    requires |parts| >= 1
  {
    if |parts| == 1 then parts[0] else parts[0] + [sep] + Implode(sep, parts[1..])
  }

  /** `explode($sep, $s)` for a one-character separator: never empty, and its parts joined back give s. */
  function Explode(sep: char, s: string): (r: seq<string>)
    ensures |r| >= 1
    ensures forall i :: 0 <= i < |r| ==> sep !in r[i]
    ensures Implode(sep, r) == s
  {
    if s == [] then [""]
    else
      var rest := Explode(sep, s[1..]);
      if s[0] == sep then [""] + rest
      else
        var r := [[s[0]] + rest[0]] + rest[1..];
        assert Implode(sep, r) == [s[0]] + Implode(sep, rest) by {
          if |rest| > 1 { assert r[1..] == rest[1..]; }
        }
        r
  }

  /** Splitting a join of separator-free parts gives the parts back. */
  lemma {:induction false} ExplodeImplode(sep: char, parts: seq<string>)
    requires |parts| >= 1
    requires forall i :: 0 <= i < |parts| ==> sep !in parts[i]
    ensures Explode(sep, Implode(sep, parts)) == parts
  {
    if |parts| == 1 {
      ExplodeSeparatorFree(sep, parts[0]);
    } else {
      ExplodeImplode(sep, parts[1..]);
      ExplodePrefix(sep, parts[0], Implode(sep, parts[1..]));
    }
  }

  lemma {:induction false} ExplodeSeparatorFree(sep: char, s: string)
    requires sep !in s
    ensures Explode(sep, s) == [s]
  {
    if s != [] {
      ExplodeSeparatorFree(sep, s[1..]);
    }
  }

  lemma {:induction false} ExplodePrefix(sep: char, p: string, t: string)
    requires sep !in p
    ensures Explode(sep, p + [sep] + t) == [p] + Explode(sep, t)
  {
    if p == [] {
      assert p + [sep] + t == [sep] + t;
      assert ([sep] + t)[1..] == t;
    } else {
      assert (p + [sep] + t)[1..] == p[1..] + [sep] + t;
      ExplodePrefix(sep, p[1..], t);
      assert [p[0]] + p[1..] == p;
    }
  }

  /** The string without its trailing '/' characters. */
  function TrimTrailingSlashes(p: string): (r: string)
    ensures |r| <= |p| && r == p[..|r|]
    ensures r == [] || r[|r| - 1] != '/'
    ensures forall i :: |r| <= i < |p| ==> p[i] == '/'
  {
    if p != [] && p[|p| - 1] == '/' then TrimTrailingSlashes(p[..|p| - 1]) else p
  }

  /** The part of s after its last '/' (all of s when it has none). */
  function AfterLastSlash(s: string): (r: string)
    ensures '/' !in r
    ensures |r| <= |s| && r == s[|s| - |r|..]
    ensures |r| < |s| ==> s[|s| - |r| - 1] == '/'
  {
    if s == [] then []
    else if s[|s| - 1] == '/' then []
    else AfterLastSlash(s[..|s| - 1]) + [s[|s| - 1]]
  }

  /**
   * `basename($path)` on a POSIX system: trailing slashes are dropped, then the
   * last path component is returned ("" for "" and for "/").
   */
  function Basename(path: string): (r: string)
    ensures '/' !in r
  {
    AfterLastSlash(TrimTrailingSlashes(path))
  }

  /** The basename of `dir/name` is name, whatever dir is, with or without trailing slashes. */
  lemma {:induction false} BasenameOfChild(dir: string, name: string, trailing: nat)
    requires name != [] && '/' !in name
    ensures Basename(dir + "/" + name + Slashes(trailing)) == name
  {
    var p := dir + "/" + name + Slashes(trailing);
    TrimSlashes(dir + "/" + name, trailing);
    AfterSlash(dir, name);
  }

  function Slashes(n: nat): (r: string)
    ensures |r| == n && forall i :: 0 <= i < n ==> r[i] == '/'
  {
    if n == 0 then [] else Slashes(n - 1) + "/"
  }

  lemma {:induction false} TrimSlashes(s: string, n: nat)
    requires s != [] && s[|s| - 1] != '/'
    ensures TrimTrailingSlashes(s + Slashes(n)) == s
  {
    if n > 0 {
      assert (s + Slashes(n))[..|s| + n - 1] == s + Slashes(n - 1);
      TrimSlashes(s, n - 1);
    } else {
      assert s + Slashes(n) == s;
    }
  }

  lemma {:induction false} AfterSlash(dir: string, name: string)
    requires '/' !in name
    ensures AfterLastSlash(dir + "/" + name) == name
  {
    if name != [] {
      var s := dir + "/" + name;
      assert s[..|s| - 1] == dir + "/" + name[..|name| - 1];
      AfterSlash(dir, name[..|name| - 1]);
      assert name[..|name| - 1] + [name[|name| - 1]] == name;
    } else {
      assert dir + "/" + name == dir + "/";
    }
  }
}
