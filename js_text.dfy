/** The part of JavaScript's string semantics the form relies on:
    `String.prototype.trim` and the test `f.trim() !== ''` that decides
    whether a feature entry is blank. */
module JsText {

  /** The characters `trim` removes: ECMAScript's WhiteSpace (TAB, VT, FF,
      ZWNBSP and the space separators of Unicode category Zs) together with
      its LineTerminator (LF, CR, LS, PS). */
  predicate IsWhitespace(c: char) {
    c == '\t' || c == '\U{000B}' || c == '\U{000C}' || c == ' ' || c == '\U{00A0}'
    || c == '\U{FEFF}' || c == '\U{1680}' || ('\U{2000}' <= c <= '\U{200A}')
    || c == '\U{202F}' || c == '\U{205F}' || c == '\U{3000}'
    || c == '\n' || c == '\r' || c == '\U{2028}' || c == '\U{2029}'
  }

  /** Every character of `s` is whitespace (the empty string included). */
  predicate AllWhitespace(s: string) {
    forall i :: 0 <= i < |s| ==> IsWhitespace(s[i])
  }

  /** `s` with its leading whitespace removed. */
  function TrimStart(s: string): (r: string)
    ensures |r| <= |s|
    ensures r == [] || !IsWhitespace(r[0])
  {
    if s != [] && IsWhitespace(s[0]) then TrimStart(s[1..]) else s
  }

  /** `TrimStart` removes a prefix made of whitespace only. */
  lemma {:induction false} TrimStartDropsWhitespace(s: string)
    ensures var r := TrimStart(s); r == s[|s| - |r|..] && AllWhitespace(s[..|s| - |r|])
  {
    if s != [] && IsWhitespace(s[0]) {
      TrimStartDropsWhitespace(s[1..]);
      var r := TrimStart(s);
      assert s[..|s| - |r|] == [s[0]] + s[1..][..|s| - 1 - |r|];
    }
  }

  /** `s` with its trailing whitespace removed. */
  function TrimEnd(s: string): (r: string)
    ensures |r| <= |s|
    ensures r == [] || !IsWhitespace(r[|r| - 1])
  {
    if s != [] && IsWhitespace(s[|s| - 1]) then TrimEnd(s[..|s| - 1]) else s
  }

  /** `TrimEnd` removes a suffix made of whitespace only. */
  lemma {:induction false} TrimEndDropsWhitespace(s: string)
    ensures var r := TrimEnd(s); r == s[..|r|] && AllWhitespace(s[|r|..])
  {
    if s != [] && IsWhitespace(s[|s| - 1]) {
      TrimEndDropsWhitespace(s[..|s| - 1]);
      var r := TrimEnd(s);
      assert s[|r|..] == s[..|s| - 1][|r|..] + [s[|s| - 1]];
    }
  }

  /** `String.prototype.trim`: the string with the whitespace at both ends
      removed. */
  function Trim(s: string): (r: string)
    ensures |r| <= |s|
    ensures r == [] || !IsWhitespace(r[|r| - 1])
  {
    TrimEnd(TrimStart(s))
  }

  /** What `Trim` returns is the slice `s[lo..hi]` that neither starts nor
      ends with whitespace, and everything cut off at either end is
      whitespace. */
  lemma TrimIsSlice(s: string)
    ensures exists lo, hi :: 0 <= lo <= hi <= |s| && Trim(s) == s[lo..hi]
                             && AllWhitespace(s[..lo]) && AllWhitespace(s[hi..])
    ensures Trim(s) == [] || !IsWhitespace(Trim(s)[0])
  {
    var t := TrimStart(s);
    var r := TrimEnd(t);
    TrimStartDropsWhitespace(s);
    TrimEndDropsWhitespace(t);
    var lo := |s| - |t|;
    assert r == s[lo..lo + |r|];
    assert s[lo + |r|..] == t[|r|..];
    if r != [] {
      assert r[0] == t[0];
    }
  }

  /** A feature entry is blank when it trims to the empty string. */
  predicate IsBlank(f: string) {
    Trim(f) == ""
  }

  /** Blank after trimming means made of whitespace only. */
  lemma BlankIffAllWhitespace(f: string)
    ensures IsBlank(f) <==> AllWhitespace(f)
  {
    var t := TrimStart(f);
    TrimStartDropsWhitespace(f);
    TrimEndDropsWhitespace(t);
    if IsBlank(f) {
      forall i | 0 <= i < |f| ensures IsWhitespace(f[i]) {
        if i < |f| - |t| {
          assert f[i] == f[..|f| - |t|][i];
        }
      }
    }
  }

  /** Trimming twice is trimming once. */
  lemma TrimIdempotent(s: string)
    ensures Trim(Trim(s)) == Trim(s)
  {
    var r := Trim(s);
    TrimIsSlice(s);
    assert TrimStart(r) == r;
    assert TrimEnd(r) == r;
  }

  /** The empty string is blank; a string holding a character other than
      whitespace is not. */
  lemma BlankExamples(f: string, i: nat)
    requires i < |f| && !IsWhitespace(f[i])
    ensures IsBlank("")
    ensures !IsBlank(f)
  {
    BlankIffAllWhitespace(f);
  }
}
