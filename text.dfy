/** String primitives of the JavaScript runtime that the application relies on. */
module Text {

  /** `0`..`9`, the characters of the regular-expression class `\d`. */
  predicate IsDigit(c: char) {
    '0' <= c <= '9'
  }

  /** `String.prototype.toLowerCase`, restricted to the ASCII letters. */
  function LowerChar(c: char): char {
    if 'A' <= c <= 'Z' then (c as int + 32) as char else c
  }

  function ToLower(s: string): string {
    seq(|s|, i requires 0 <= i < |s| => LowerChar(s[i]))
  }

  /** Lower-casing a lower-cased string changes nothing. */
  lemma ToLowerIdempotent(s: string)
    ensures ToLower(ToLower(s)) == ToLower(s)
  {
  }

  /** The white space and line terminators that `String.prototype.trim` removes. */
  predicate IsTrimmable(c: char) {
    || c == ' ' || c == '\t' || c == '\n' || c == '\U{B}' || c == '\U{C}' || c == '\r'
    || c == '\U{A0}' || c == '\U{1680}' || ('\U{2000}' <= c <= '\U{200A}')
    || c == '\U{2028}' || c == '\U{2029}' || c == '\U{202F}' || c == '\U{205F}'
    || c == '\U{3000}' || c == '\U{FEFF}'
  }

  /** Drops leading white space; what is left is a suffix of `s`. */
  function TrimStart(s: string): (r: string)
    ensures |r| <= |s| && r == s[|s| - |r|..]
    ensures r == [] || !IsTrimmable(r[0])
    ensures forall i :: 0 <= i < |s| - |r| ==> IsTrimmable(s[i])
  {
    if |s| > 0 && IsTrimmable(s[0]) then TrimStart(s[1..]) else s
  }

  /** Drops trailing white space; what is left is a prefix of `s`. */
  function TrimEnd(s: string): (r: string)
    ensures |r| <= |s| && r == s[..|r|]
    ensures r == [] || !IsTrimmable(r[|r| - 1])
    ensures forall i :: |r| <= i < |s| ==> IsTrimmable(s[i])
  {
    if |s| > 0 && IsTrimmable(s[|s| - 1]) then TrimEnd(s[..|s| - 1]) else s
  }

  /** `String.prototype.trim`. */
  function Trim(s: string): string {
    TrimEnd(TrimStart(s))
  }

  /** `r` occurs in `s` at `i` with only white space before and after it. */
  predicate CutFrom(s: string, r: string, i: int) {
    && OccursAt(s, r, i)
    && (forall k :: 0 <= k < i ==> IsTrimmable(s[k]))
    && (forall k :: i + |r| <= k < |s| ==> IsTrimmable(s[k]))
  }

  /** What trimming leaves: a piece of `s` that neither starts nor ends with white space,
      with only white space cut off around it. */
  lemma TrimShape(s: string)
    ensures Trim(s) == [] || (!IsTrimmable(Trim(s)[0]) && !IsTrimmable(Trim(s)[|Trim(s)| - 1]))
    ensures exists i :: CutFrom(s, Trim(s), i)
  {
    var u := TrimStart(s);
    var w := TrimEnd(u);
    var i := |s| - |u|;
    assert u == s[i..];
    assert w == u[..|w|];
    assert OccursAt(s, w, i) by {
      assert s[i..i + |w|] == u[..|w|];
    }
    forall k | i + |w| <= k < |s| ensures IsTrimmable(s[k]) {
      assert s[k] == u[k - i];
    }
    assert CutFrom(s, w, i);
    if w != [] {
      assert w[0] == u[0];
    }
  }

  /** Trimming is idempotent: a trimmed string has nothing left to trim. */
  lemma TrimIdempotent(s: string)
    ensures Trim(Trim(s)) == Trim(s)
  {
    var w := Trim(s);
    TrimShape(s);
    assert TrimStart(w) == w;
    assert TrimEnd(w) == w;
  }

  /** `sub` occurs in `s` starting at index `i`. */
  predicate OccursAt(s: string, sub: string, i: int) {
    0 <= i <= |s| - |sub| && s[i..i + |sub|] == sub
  }

  /** `String.prototype.includes`. */
  predicate Contains(s: string, sub: string) {
    exists i | 0 <= i <= |s| - |sub| :: OccursAt(s, sub, i)
  }

  /** Every string includes the empty string. */
  lemma ContainsEmpty(s: string)
    ensures Contains(s, "")
  {
    assert OccursAt(s, "", 0);
  }

  /** `Array.prototype.join` on an array of strings. */
  function Join(xs: seq<string>, sep: string): string {
    if |xs| == 0 then "" else if |xs| == 1 then xs[0] else xs[0] + sep + Join(xs[1..], sep)
  }

  /** An occurrence survives putting text before and after it. */
  lemma OccursInside(pre: string, s: string, post: string, sub: string, i: int)
    requires OccursAt(s, sub, i)
    ensures OccursAt(pre + s + post, sub, |pre| + i)
  {
    assert (pre + s + post)[|pre| + i..|pre| + i + |sub|] == s[i..i + |sub|];
  }

  /** A piece of an occurrence occurs too. */
  lemma OccursPart(s: string, pre: string, sub: string, post: string, i: int)
    requires OccursAt(s, pre + sub + post, i)
    ensures OccursAt(s, sub, i + |pre|)
  {
    var whole := pre + sub + post;
    assert s[i..i + |whole|] == whole;
    forall j | 0 <= j < |sub| ensures s[i + |pre| + j] == sub[j] {
      assert s[i + |pre| + j] == s[i..i + |whole|][|pre| + j];
      assert whole[|pre| + j] == sub[j];
    }
  }

  /** Each element of a joined list occurs in the joined string. */
  lemma {:induction false} JoinContainsEach(xs: seq<string>, sep: string, k: int)
    requires 0 <= k < |xs|
    ensures Contains(Join(xs, sep), xs[k])
  {
    if |xs| == 1 {
      assert OccursAt(Join(xs, sep), xs[k], 0);
    } else if k == 0 {
      assert Join(xs, sep) == xs[0] + (sep + Join(xs[1..], sep));
      assert OccursAt(xs[0], xs[0], 0);
      OccursInside("", xs[0], sep + Join(xs[1..], sep), xs[0], 0);
      assert "" + xs[0] + (sep + Join(xs[1..], sep)) == Join(xs, sep);
    } else {
      JoinContainsEach(xs[1..], sep, k - 1);
      var tail := Join(xs[1..], sep);
      var i :| 0 <= i <= |tail| - |xs[k]| && OccursAt(tail, xs[k], i);
      OccursInside(xs[0] + sep, tail, "", xs[k], i);
      assert xs[0] + sep + tail + "" == Join(xs, sep);
    }
  }
}
