/**
 * The `extensionType` attribute of configuration nodes: a string such as
 * `Some\Injector('a', 'b', c)` naming an injector class and its constructor
 * parameters, parsed lazily into an injector the first time it is asked for.
 */
module ExtensionInjector {
  import opened Wrappers
  import opened PhpStrings

  /** A name PHP accepts for a class: letters, digits, `_`, `\` and bytes from 0x80, not starting with a digit. */
  predicate IsClassName(n: string) {
    n != [] && !('0' <= n[0] <= '9') &&
    forall i :: 0 <= i < |n| ==> IsClassNameChar(n[i])
  }

  predicate IsClassNameChar(c: char) {
    ('a' <= c <= 'z') || ('A' <= c <= 'Z') || ('0' <= c <= '9') || c == '_' || c == '\\' || c >= '\U{80}'
  }

  /** `class_exists($n)`, where `known` stands for the classes the autoloader can find. */
  predicate ClassExists(known: set<string>, n: string) {
    IsClassName(n) && n in known
  }

  /** An injector as constructed: its class and the first three parameters (null when missing). */
  datatype Injector = Injector(className: string, first: Option<string>, second: Option<string>, third: Option<string>)

  datatype InitError = UnknownInjectorClass(candidate: string)

  /** `(a, b)` is a match of the pattern `\((.+)\)` in s (a dot matches any character here). */
  predicate ParenMatch(s: string, a: int, b: int) {
    0 <= a && a + 2 <= b < |s| && s[a] == '(' && s[b] == ')'
  }

  function FirstIndexOf(s: string, c: char): (r: Option<nat>)
    ensures r.Some? ==> r.value < |s| && s[r.value] == c && forall j :: 0 <= j < r.value ==> s[j] != c
    ensures r.None? ==> c !in s
  {
    if s == [] then None
    else if s[0] == c then Some(0)
    else
      match FirstIndexOf(s[1..], c)
      case None => None
      case Some(i) => Some(i + 1)
  }

  function LastIndexOf(s: string, c: char): (r: Option<nat>)
    ensures r.Some? ==> r.value < |s| && s[r.value] == c && forall j :: r.value < j < |s| ==> s[j] != c
    ensures r.None? ==> c !in s
  {
    if s == [] then None
    else if s[|s| - 1] == c then Some(|s| - 1)
    else LastIndexOf(s[..|s| - 1], c)
  }

  /**
   * Group 1 of `preg_match('`\((.+)\)`', s)`: the leftmost match, made as long as
   * possible by the greedy `.+`; None when the pattern does not match.
   */
  function ParameterString(s: string): (r: Option<string>)
    ensures r.Some? <==> exists a, b :: ParenMatch(s, a, b)
    ensures r.Some? ==>
      exists a, b :: ParenMatch(s, a, b) && r.value == s[a + 1..b] &&
        (forall a', b' :: ParenMatch(s, a', b') ==> a <= a') &&
        (forall b' :: ParenMatch(s, a, b') ==> b' <= b)
  {
    var open := FirstIndexOf(s, '(');
    var close := LastIndexOf(s, ')');
    if open.Some? && close.Some? && open.value + 2 <= close.value then
      assert ParenMatch(s, open.value, close.value);
      Some(s[open.value + 1..close.value])
    else
      None
  }

  /** `$a[$i]` on a list, null when the index is missing. */
  function At(parts: seq<string>, i: nat): (r: Option<string>)
    ensures r.Some? <==> i < |parts|
    ensures r.Some? ==> r.value == parts[i]
  {
    if i < |parts| then Some(parts[i]) else None
  }

  /**
   * The class the injector is built from: the whole extension type if that is a
   * known class, else the text before the first `(`; the error names the last
   * candidate tried (false, i.e. "", when there is no `(`).
   */
  function InjectorClass(ext: string, known: set<string>): (r: Result<string, InitError>)
    ensures r.Success? <==> ClassExists(known, ext) || (StrStrBefore(ext, '(').Some? && ClassExists(known, StrStrBefore(ext, '(').value))
    ensures r.Success? ==> ClassExists(known, r.value)
    ensures r.Success? && !ClassExists(known, ext) ==> r.value + "(" <= ext
  {
    if ClassExists(known, ext) then Success(ext)
    else
      var candidate := StrStrBefore(ext, '(').GetOr("");
      if ClassExists(known, candidate) then
        assert ext[..|candidate|] == candidate;
        assert ext[..|candidate| + 1] == candidate + "(";
        Success(candidate)
      else Failure(UnknownInjectorClass(candidate))
  }

  /** The cleaned parameter list: the parameter string without spaces and quotes, split on `,`. */
  function Parameters(ext: string): (r: seq<string>)
    ensures |r| >= 1
    ensures Implode(',', r) == StripSpacesAndQuotes(ParameterString(ext).GetOr(""))
    ensures forall i :: 0 <= i < |r| ==> ' ' !in r[i] && '\'' !in r[i] && ',' !in r[i]
  {
    var parts := Explode(',', StripSpacesAndQuotes(ParameterString(ext).GetOr("")));
    assert forall i :: 0 <= i < |parts| ==> ' ' !in parts[i] && '\'' !in parts[i] by {
      forall i | 0 <= i < |parts| ensures ' ' !in parts[i] && '\'' !in parts[i] {
        ExplodePartsAreInfixes(',', StripSpacesAndQuotes(ParameterString(ext).GetOr("")), i);
      }
    }
    parts
  }

  /** Every character of a part of `explode` is a character of the exploded string. */
  lemma {:induction false} ExplodePartsAreInfixes(sep: char, s: string, i: nat)
    requires i < |Explode(sep, s)|
    ensures forall ch :: ch in Explode(sep, s)[i] ==> ch in s
  {
    if s != [] {
      var rest := Explode(sep, s[1..]);
      if s[0] == sep {
        if i > 0 { ExplodePartsAreInfixes(sep, s[1..], i - 1); }
      } else if i == 0 {
        ExplodePartsAreInfixes(sep, s[1..], 0);
      } else {
        ExplodePartsAreInfixes(sep, s[1..], i);
      }
    }
  }

  /**
   * `initExtensionType`: the injector class with the first three cleaned
   * parameters, or the "Unknown injector class" error. A null extension type
   * reads as "" in every string function involved.
   */
  function InitExtensionType(extensionType: Option<string>, known: set<string>): (r: Result<Injector, InitError>)
    ensures r.Success? <==> InjectorClass(extensionType.GetOr(""), known).Success?
    ensures r.Success? ==>
      var ps := Parameters(extensionType.GetOr(""));
      r.value == Injector(InjectorClass(extensionType.GetOr(""), known).value, At(ps, 0), At(ps, 1), At(ps, 2))
  {
    var ext := extensionType.GetOr("");
    match InjectorClass(ext, known)
    case Failure(e) => Failure(e)
    case Success(cls) =>
      var ps := Parameters(ext);
      Success(Injector(cls, At(ps, 0), At(ps, 1), At(ps, 2)))
  }

  /** An empty extension type never yields an injector, whatever classes are known. */
  lemma EmptyExtensionTypeFails(extensionType: Option<string>, known: set<string>)
    requires Empty(extensionType)
    ensures InitExtensionType(extensionType, known).Failure?
  {
    var ext := extensionType.GetOr("");
    assert ext == "" || ext == "0";
    assert StrStrBefore(ext, '(').None?;
  }

  /**
   * An extension type written `Class(body)`, where body has no `)` and reads, once
   * its spaces and quotes are removed, as the parameters joined by `,`, parses to
   * the class and exactly the first three parameters.
   */
  lemma ParseWritten(cls: string, body: string, ps: seq<string>, known: set<string>)
    requires ClassExists(known, cls)
    requires ')' !in body
    requires |ps| >= 3 && forall i :: 0 <= i < |ps| ==> ',' !in ps[i]
    requires StripSpacesAndQuotes(body) == Implode(',', ps)
    ensures InitExtensionType(Some(cls + "(" + body + ")"), known)
      == Success(Injector(cls, Some(ps[0]), Some(ps[1]), Some(ps[2])))
  {
    var ext := cls + "(" + body + ")";
    ImplodeLength(',', ps);
    FormattedClass(cls, body, known);
    FormattedParameterString(cls, body);
    ExplodeImplode(',', ps);
    assert Parameters(ext) == ps;
  }

  /**
   * Writing `Class(p0,p1,p2,...)` with clean parameters and parsing it back gives
   * the class and exactly the first three parameters.
   */
  lemma ParseFormatted(cls: string, ps: seq<string>, known: set<string>)
    requires ClassExists(known, cls)
    requires |ps| >= 3
    requires forall i :: 0 <= i < |ps| ==> ' ' !in ps[i] && '\'' !in ps[i] && ',' !in ps[i] && ')' !in ps[i]
    ensures InitExtensionType(Some(cls + "(" + Implode(',', ps) + ")"), known)
      == Success(Injector(cls, Some(ps[0]), Some(ps[1]), Some(ps[2])))
  {
    var body := Implode(',', ps);
    ImplodeChars(',', ps);
    StripClean(body);
    ParseWritten(cls, body, ps, known);
  }

  /** Quotes and spaces around the parameters are dropped: `Cls('a', b, c)` gives a, b and c. */
  lemma QuotedParameters(cls: string, known: set<string>)
    requires ClassExists(known, cls)
    ensures InitExtensionType(Some(cls + "(" + "'a', b, c" + ")"), known)
      == Success(Injector(cls, Some("a"), Some("b"), Some("c")))
  {
    StripExample();
    ImplodeExample();
    var ps := ["a", "b", "c"];
    assert forall i :: 0 <= i < |ps| ==> ',' !in ps[i];
    ParseWritten(cls, "'a', b, c", ps, known);
  }

  lemma ImplodeExample()
    ensures Implode(',', ["a", "b", "c"]) == "a,b,c"
  {
  }

  lemma StripExample()
    ensures StripSpacesAndQuotes("'a', b, c") == "a,b,c"
  {
    StripFirst();
    StripRest();
    StripAppend("'a',", " b, c");
    assert "'a'," + " b, c" == "'a', b, c";
  }

  lemma StripFirst()
    ensures StripSpacesAndQuotes("'a',") == "a,"
  {
  }

  lemma StripRest()
    ensures StripSpacesAndQuotes(" b, c") == "b,c"
  {
  }

  lemma FormattedClass(cls: string, body: string, known: set<string>)
    requires ClassExists(known, cls)
    ensures InjectorClass(cls + "(" + body + ")", known) == Success(cls)
  {
    var ext := cls + "(" + body + ")";
    assert !IsClassName(ext) by { assert !IsClassNameChar(ext[|cls|]); }
    assert ext[..|cls|] == cls;
    StrStrBeforeFirst(ext, cls, '(');
  }

  /** Behind a class name, the parameter string is everything between the `(` and the final `)`. */
  lemma FormattedParameterString(cls: string, body: string)
    requires IsClassName(cls)
    requires |body| >= 1 && ')' !in body
    ensures ParameterString(cls + "(" + body + ")") == Some(body)
  {
    var ext := cls + "(" + body + ")";
    LastIsClose(ext);
    OpenAfterClassName(cls, body + ")");
    assert cls + "(" + (body + ")") == ext;
    assert ext[|cls| + 1..|ext| - 1] == body;
  }

  /** The first `(` after a class name is the one right behind it. */
  lemma OpenAfterClassName(cls: string, rest: string)
    requires IsClassName(cls)
    ensures FirstIndexOf(cls + "(" + rest, '(') == Some(|cls|)
  {
    var ext := cls + "(" + rest;
    assert ext[|cls|] == '(';
    assert forall j :: 0 <= j < |cls| ==> ext[j] == cls[j] && IsClassNameChar(cls[j]);
  }

  lemma StrStrBeforeFirst(s: string, p: string, c: char)
    requires c !in p && |p| < |s| && s[..|p|] == p && s[|p|] == c
    ensures StrStrBefore(s, c) == Some(p)
  {
  }

  lemma {:induction false} ImplodeChars(sep: char, ps: seq<string>)
    requires |ps| >= 1
    ensures forall ch :: ch in Implode(sep, ps) ==> ch == sep || exists i :: 0 <= i < |ps| && ch in ps[i]
  {
    if |ps| > 1 {
      ImplodeChars(sep, ps[1..]);
      forall ch | ch in Implode(sep, ps)
        ensures ch == sep || exists i :: 0 <= i < |ps| && ch in ps[i]
      {
        if ch in Implode(sep, ps[1..]) && ch != sep {
          var i :| 0 <= i < |ps[1..]| && ch in ps[1..][i];
          assert ch in ps[i + 1];
        }
      }
    }
  }

  lemma {:induction false} ImplodeLength(sep: char, ps: seq<string>)
    requires |ps| >= 2
    ensures |Implode(sep, ps)| >= 1
  {
  }

  lemma LastIsClose(ext: string)
    requires |ext| >= 1 && ext[|ext| - 1] == ')'
    ensures LastIndexOf(ext, ')') == Some(|ext| - 1)
  {
  }

  lemma {:induction false} StripClean(s: string)
    requires ' ' !in s && '\'' !in s
    ensures StripSpacesAndQuotes(s) == s
  {
    if s != [] {
      StripClean(s[1..]);
    }
  }

  /** A configuration node carrying an `extensionType` attribute and its lazily built injector. */
  class ExtensionInjectorNode {
    const extensionType: Option<string>
    var injector: Option<Injector>

    constructor(extensionType: Option<string>)
      ensures this.extensionType == extensionType && injector.None?
    {
      this.extensionType := extensionType;
      injector := None;
    }

    /** `hasInjector`: the extension type is filled in PHP's sense of `!empty`. */
    function HasInjector(): (r: bool)
      ensures r <==> extensionType.Some? && extensionType.value != "" && extensionType.value != "0"
    {
      !Empty(extensionType)
    }

    /**
     * `getInjector`: parses the extension type only while no injector is set; a
     * failed parse throws and leaves the field unset.
     */
    method GetInjector(known: set<string>) returns (r: Result<Injector, InitError>)
      modifies this
      ensures old(injector).Some? ==> r == Success(old(injector).value) && injector == old(injector)
      ensures old(injector).None? ==> r == InitExtensionType(extensionType, known)
      ensures old(injector).None? ==> injector == if r.Success? then Some(r.value) else None
    {
      if injector.None? {
        r := InitExtensionType(extensionType, known);
        if r.Success? {
          injector := Some(r.value);
        }
      } else {
        r := Success(injector.value);
      }
    }
  }

  /** Two calls in a row return the same injector, and the second one does not parse. */
  method GetInjectorTwice(node: ExtensionInjectorNode, known: set<string>, later: set<string>)
    returns (first: Result<Injector, InitError>, second: Result<Injector, InitError>)
    modifies node
    ensures first.Success? ==> second == first
  {
    first := node.GetInjector(known);
    second := node.GetInjector(later);
  }
}
