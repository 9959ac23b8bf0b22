/** The two JavaScript string built-ins the server relies on:
    `String.prototype.trim` (the exec bridge trims captured output) and
    `String.prototype.toLowerCase` (command names are matched case-insensitively). */
module JsText {

  /** ECMAScript WhiteSpace (TAB, VT, FF, ZWNBSP and the Unicode Zs category)
      together with LineTerminator (LF, CR, LS, PS): what `trim` removes. */
  const WHITESPACE: set<char> := {
    '\t', '\n', '\U{000B}', '\U{000C}', '\r', ' ', '\U{00A0}', '\U{1680}',
    '\U{2000}', '\U{2001}', '\U{2002}', '\U{2003}', '\U{2004}', '\U{2005}',
    '\U{2006}', '\U{2007}', '\U{2008}', '\U{2009}', '\U{200A}',
    '\U{2028}', '\U{2029}', '\U{202F}', '\U{205F}', '\U{3000}', '\U{FEFF}'
  }

  predicate IsWhitespace(c: char) {
    c in WHITESPACE
  }

  /** Every character of `s` from index `lo` up to (not including) `hi` is whitespace. */
  predicate WhitespaceBetween(s: string, lo: int, hi: int) {
    forall n :: lo <= n < hi && 0 <= n < |s| ==> IsWhitespace(s[n])
  }

  /** Neither the first nor the last character is whitespace. */
  predicate NoOuterWhitespace(s: string) {
    s == [] || (!IsWhitespace(s[0]) && !IsWhitespace(s[|s| - 1]))
  }

  /** The first index in `from..to` that does not hold whitespace, or `to`
      when there is none. */
  function FirstNonWhitespace(s: string, from: nat, to: nat): (i: nat)
    requires from <= to <= |s|
    ensures from <= i <= to
    ensures WhitespaceBetween(s, from, i)
    ensures i < to ==> !IsWhitespace(s[i])
    decreases |s| - from
  {
    if from < to && IsWhitespace(s[from]) then FirstNonWhitespace(s, from + 1, to) else from
  }

  /** The index just after the last character before `to` that is not
      whitespace, or 0 when there is none. */
  function EndOfNonWhitespace(s: string, to: nat): (j: nat)
    requires to <= |s|
    ensures j <= to
    ensures WhitespaceBetween(s, j, to)
    ensures j > 0 ==> !IsWhitespace(s[j - 1])
  {
    if to > 0 && IsWhitespace(s[to - 1]) then EndOfNonWhitespace(s, to - 1) else to
  }

  /** `String.prototype.trim`: `s` with whitespace removed from both ends. */
  function Trim(s: string): (r: string)
    ensures |r| <= |s| && NoOuterWhitespace(r)
  {
    var j := EndOfNonWhitespace(s, |s|);
    var i := FirstNonWhitespace(s, 0, j);
    assert i < j ==> s[i..j][0] == s[i] && s[i..j][j - i - 1] == s[j - 1];
    s[i..j]
  }

  /** What `Trim` returns is a slice of `s`, starting at `i`, and everything cut
      off around it is whitespace. */
  lemma TrimIsSlice(s: string) returns (i: nat)
    ensures i + |Trim(s)| <= |s| && Trim(s) == s[i..i + |Trim(s)|]
    ensures WhitespaceBetween(s, 0, i) && WhitespaceBetween(s, i + |Trim(s)|, |s|)
  {
    var j := EndOfNonWhitespace(s, |s|);
    i := FirstNonWhitespace(s, 0, j);
    assert Trim(s) == s[i..j];
  }

  /** Trimming is determined by the slice: any slice of `s` without outer
      whitespace whose surroundings are all whitespace is what `Trim` returns. */
  lemma TrimUnique(s: string, i: nat, j: nat)
    requires i <= j <= |s|
    requires WhitespaceBetween(s, 0, i) && WhitespaceBetween(s, j, |s|)
    requires NoOuterWhitespace(s[i..j])
    ensures Trim(s) == s[i..j]
  {
    var e := EndOfNonWhitespace(s, |s|);
    var b := FirstNonWhitespace(s, 0, e);
    assert Trim(s) == s[b..e];
    if i == j {
      // all of s is whitespace, so nothing survives trimming
      assert e > 0 ==> (e - 1 < i || j <= e - 1);
      assert e == 0;
    } else {
      assert s[i..j][0] == s[i] && s[i..j][j - i - 1] == s[j - 1];
      assert e == j;
      assert b == i;
    }
  }

  /** Trimming twice is trimming once. */
  lemma TrimIdempotent(s: string)
    ensures Trim(Trim(s)) == Trim(s)
  {
    var r := Trim(s);
    assert r[0..|r|] == r;
    TrimUnique(r, 0, |r|);
  }

  predicate IsUpper(c: char) { 'A' <= c <= 'Z' }

  function LowerChar(c: char): char {
    if IsUpper(c) then (c as int + 32) as char else c
  }

  /** `String.prototype.toLowerCase` restricted to ASCII letters. */
  function Lower(s: string): string {
    seq(|s|, i requires 0 <= i < |s| => LowerChar(s[i]))
  }


  /** Two names are the same apart from the case of ASCII letters. */
  predicate EqualIgnoringCase(a: string, b: string) {
    |a| == |b| &&
    forall i :: 0 <= i < |a| ==>
      a[i] == b[i] ||
      (IsUpper(a[i]) && b[i] as int == a[i] as int + 32) ||
      (IsUpper(b[i]) && a[i] as int == b[i] as int + 32)
  }

  /** Lowercasing identifies exactly the names that differ only in case. */
  lemma LowerEqualIff(a: string, b: string)
    ensures Lower(a) == Lower(b) <==> EqualIgnoringCase(a, b)
  {
    if Lower(a) == Lower(b) {
      forall i | 0 <= i < |a|
        ensures a[i] == b[i] ||
                (IsUpper(a[i]) && b[i] as int == a[i] as int + 32) ||
                (IsUpper(b[i]) && a[i] as int == b[i] as int + 32)
      {
        assert Lower(a)[i] == Lower(b)[i];
      }
    }
    if EqualIgnoringCase(a, b) {
      forall i | 0 <= i < |a| ensures Lower(a)[i] == Lower(b)[i] {
      }
    }
  }
}
