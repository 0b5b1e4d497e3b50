/** The JavaScript string operations the core relies on: `toUpperCase`,
    `toLowerCase`, `trim` and `includes`. Strings are sequences of
    characters; case mapping is modelled for the ASCII letters only. */
module Text {

  predicate IsAsciiLower(c: char) { 'a' <= c <= 'z' }

  predicate IsAsciiUpper(c: char) { 'A' <= c <= 'Z' }

  function UpperChar(c: char): char {
    if IsAsciiLower(c) then (c as int - 32) as char else c
  }

  function LowerChar(c: char): char {
    if IsAsciiUpper(c) then (c as int + 32) as char else c
  }

  /** `s.toUpperCase()`: every character mapped on its own, length kept. */
  function ToUpper(s: string): (r: string)
    ensures |r| == |s|
    ensures forall i :: 0 <= i < |s| ==> r[i] == UpperChar(s[i])
  {
    if s == [] then [] else [UpperChar(s[0])] + ToUpper(s[1..])
  }

  /** `s.toLowerCase()`: every character mapped on its own, length kept. */
  function ToLower(s: string): (r: string)
    ensures |r| == |s|
    ensures forall i :: 0 <= i < |s| ==> r[i] == LowerChar(s[i])
  {
    if s == [] then [] else [LowerChar(s[0])] + ToLower(s[1..])
  }

  /** An upper-cased string has no lower-case letter left, and upper-casing
      it again changes nothing. */
  lemma ToUpperIdempotent(s: string)
    ensures forall i :: 0 <= i < |s| ==> !IsAsciiLower(ToUpper(s)[i])
    ensures ToUpper(ToUpper(s)) == ToUpper(s)
  {
    var u := ToUpper(s);
    assert forall i :: 0 <= i < |s| ==> UpperChar(u[i]) == u[i];
  }

  /** The characters ECMAScript's `trim` removes: WhiteSpace (tab, vertical
      tab, form feed, space, no-break space, byte-order mark and the other
      Zs space separators) and LineTerminator (LF, CR, U+2028, U+2029). */
  predicate IsWhiteSpace(c: char) {
    var n := c as int;
    || 0x09 <= n <= 0x0D || n == 0x20 || n == 0xA0 || n == 0x1680
    || 0x2000 <= n <= 0x200A || n == 0x2028 || n == 0x2029 || n == 0x202F
    || n == 0x205F || n == 0x3000 || n == 0xFEFF
  }

  predicate AllWhiteSpace(s: string) {
    forall i :: 0 <= i < |s| ==> IsWhiteSpace(s[i])
  }

  /** Drops the leading white space: what is left is a suffix of `s`, the
      dropped prefix is all white space and the suffix does not start with it. */
  function TrimStart(s: string): (r: string)
    ensures |r| <= |s| && r == s[|s| - |r|..]
    ensures AllWhiteSpace(s[..|s| - |r|])
    ensures r != [] ==> !IsWhiteSpace(r[0])
  {
    if s != [] && IsWhiteSpace(s[0]) then TrimStart(s[1..]) else s
  }

  /** Drops the trailing white space, symmetrically to TrimStart. */
  function TrimEnd(s: string): (r: string)
    ensures |r| <= |s| && r == s[..|r|]
    ensures AllWhiteSpace(s[|r|..])
    ensures r != [] ==> !IsWhiteSpace(r[|r| - 1])
  {
    if s != [] && IsWhiteSpace(s[|s| - 1]) then TrimEnd(s[..|s| - 1]) else s
  }

  /** `r` sits in `s` at offset `i` with only white space around it. */
  predicate TrimmedAt(s: string, r: string, i: int) {
    0 <= i && i + |r| <= |s| && s[i..i + |r|] == r
    && AllWhiteSpace(s[..i]) && AllWhiteSpace(s[i + |r|..])
  }

  /** `s.trim()`: the slice of `s` left after removing white space at both
      ends; it neither starts nor ends with white space, and it is empty
      exactly when `s` is all white space. */
  function Trim(s: string): (r: string)
    ensures exists i :: TrimmedAt(s, r, i)
    ensures r != [] ==> !IsWhiteSpace(r[0]) && !IsWhiteSpace(r[|r| - 1])
    ensures r == [] <==> AllWhiteSpace(s)
  {
    var a := TrimStart(s);
    var b := TrimEnd(a);
    TrimPieces(s, a, b);
    b
  }

  lemma TrimPieces(s: string, a: string, b: string)
    requires |a| <= |s| && a == s[|s| - |a|..] && AllWhiteSpace(s[..|s| - |a|])
    requires a != [] ==> !IsWhiteSpace(a[0])
    requires |b| <= |a| && b == a[..|b|] && AllWhiteSpace(a[|b|..])
    ensures TrimmedAt(s, b, |s| - |a|)
    ensures b != [] ==> !IsWhiteSpace(b[0])
    ensures b == [] <==> AllWhiteSpace(s)
  {
    var i := |s| - |a|;
    assert s[i..] == a;
    TrimmedAtSuffix(s, a, b, i);
    if b == [] {
      assert s[..i] + a == s;
      AllWhiteSpaceConcat(s[..i], a);
    } else {
      assert b[0] == a[0] == s[i];
    }
  }

  lemma TrimmedAtSuffix(s: string, a: string, b: string, i: int)
    requires 0 <= i <= |s| && s[i..] == a && AllWhiteSpace(s[..i])
    requires |b| <= |a| && b == a[..|b|] && AllWhiteSpace(a[|b|..])
    ensures TrimmedAt(s, b, i)
  {
    assert s[i..i + |b|] == a[..|b|];
    assert s[i + |b|..] == a[|b|..];
  }

  lemma AllWhiteSpaceConcat(x: string, y: string)
    requires AllWhiteSpace(x) && AllWhiteSpace(y)
    ensures AllWhiteSpace(x + y)
  {
    forall k | 0 <= k < |x + y| ensures IsWhiteSpace((x + y)[k]) {
      if k < |x| { assert (x + y)[k] == x[k]; } else { assert (x + y)[k] == y[k - |x|]; }
    }
  }

  /** The trimmed form is unique: a non-empty slice of `s` with only white
      space around it, and none at its own ends, is what `Trim` returns. */
  lemma TrimUnique(s: string, r: string, i: int)
    requires TrimmedAt(s, r, i) && r != []
    requires !IsWhiteSpace(r[0]) && !IsWhiteSpace(r[|r| - 1])
    ensures Trim(s) == r
  {
    var t := Trim(s);
    var j :| TrimmedAt(s, t, j);
    assert s[i] == r[0];
    assert s[i + |r| - 1] == r[|r| - 1];
    assert t != [] by {
      assert !IsWhiteSpace(s[i]);
    }
    assert s[j] == t[0];
    assert s[j + |t| - 1] == t[|t| - 1];
    WhiteSpacePrefix(s, i);
    WhiteSpacePrefix(s, j);
    WhiteSpaceSuffix(s, i + |r|);
    WhiteSpaceSuffix(s, j + |t|);
    assert i == j && |r| == |t|;
  }

  lemma WhiteSpacePrefix(s: string, n: int)
    requires 0 <= n <= |s| && AllWhiteSpace(s[..n])
    ensures forall k :: 0 <= k < n ==> IsWhiteSpace(s[k])
  {
    assert forall k :: 0 <= k < n ==> s[..n][k] == s[k];
  }

  lemma WhiteSpaceSuffix(s: string, n: int)
    requires 0 <= n <= |s| && AllWhiteSpace(s[n..])
    ensures forall k :: n <= k < |s| ==> IsWhiteSpace(s[k])
  {
    assert forall k :: n <= k < |s| ==> s[n..][k - n] == s[k];
  }

  /** `sub` occurs in `s` starting at index `i`. */
  predicate OccursAt(s: string, sub: string, i: int) {
    0 <= i && i + |sub| <= |s| && s[i..i + |sub|] == sub
  }

  /** `s.includes(sub)`: true exactly when `sub` occurs somewhere in `s`;
      the empty string occurs in every string. */
  function Includes(s: string, sub: string): (r: bool)
    ensures r <==> exists i :: OccursAt(s, sub, i)
  {
    if |sub| <= |s| && s[..|sub|] == sub then
      assert OccursAt(s, sub, 0);
      true
    else if s == [] then
      false
    else
      var r := Includes(s[1..], sub);
      assert r ==> exists i :: OccursAt(s, sub, i) by {
        if r {
          var j :| OccursAt(s[1..], sub, j);
          assert s[j + 1..j + 1 + |sub|] == s[1..][j..j + |sub|];
          assert OccursAt(s, sub, j + 1);
        }
      }
      assert (exists i :: OccursAt(s, sub, i)) ==> r by {
        if exists i :: OccursAt(s, sub, i) {
          var i :| OccursAt(s, sub, i);
          assert i != 0;
          assert s[1..][i - 1..i - 1 + |sub|] == s[i..i + |sub|];
          assert OccursAt(s[1..], sub, i - 1);
        }
      }
      r
  }
}
