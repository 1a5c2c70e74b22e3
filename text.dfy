/** String facts used to state what a prompt contains, and the ASCII model of
    `String.prototype.toLowerCase`. */
module Text {

  predicate StartsWith(s: string, prefix: string) {
    prefix <= s
  }

  predicate EndsWith(s: string, suffix: string) {
    |suffix| <= |s| && s[|s| - |suffix|..] == suffix
  }

  /** `t` occurs in `s` as a contiguous piece. */
  ghost predicate Occurs(t: string, s: string) {
    exists i :: 0 <= i <= |s| && t <= s[i..]
  }

  lemma OccursMid(a: string, t: string, b: string)
    ensures Occurs(t, a + t + b)
  {
    assert (a + t + b)[|a|..] == t + b;
  }

  lemma OccursAt(s: string, i: nat, t: string)
    requires i <= |s| && t <= s[i..]
    ensures Occurs(t, s)
  {
  }

  lemma EndsWithOccurs(s: string, t: string)
    requires EndsWith(s, t)
    ensures Occurs(t, s)
  {
    OccursAt(s, |s| - |t|, t);
  }

  lemma StartsWithOccurs(s: string, t: string)
    requires StartsWith(s, t)
    ensures Occurs(t, s)
  {
    assert s[0..] == s;
    OccursAt(s, 0, t);
  }

  /** An occurrence inside an occurrence is an occurrence. */
  lemma OccursTrans(u: string, t: string, s: string)
    requires Occurs(u, t) && Occurs(t, s)
    ensures Occurs(u, s)
  {
    var j :| 0 <= j <= |t| && u <= t[j..];
    var i :| 0 <= i <= |s| && t <= s[i..];
    assert s[i..][j..] == s[i + j..];
    assert t[j..] <= s[i..][j..];
    OccursAt(s, i + j, u);
  }

  /** A suffix of a suffix is a suffix. */
  lemma EndsWithTrans(s: string, t: string, u: string)
    requires EndsWith(s, t) && EndsWith(t, u)
    ensures EndsWith(s, u)
  {
    assert s[|s| - |u|..] == s[|s| - |t|..][|t| - |u|..];
  }

  lemma EndsWithConcat(a: string, b: string)
    ensures EndsWith(a + b, b)
  {
    assert (a + b)[|a|..] == b;
  }

  /** Regrouping a five-part concatenation around its middle part. */
  lemma AssocMiddle(a: string, b: string, x: string, c: string, d: string)
    ensures a + (b + x + c) + d == (a + b) + x + (c + d)
  {
  }

  /** An empty middle part drops out of a concatenation. */
  lemma DropEmpty(a: string, x: string, b: string)
    requires x == ""
    ensures a + x + b == a + b
  {
    assert a + x == a;
  }

  /** A text slot between a heading and a trailer: filling it with `u` is the
      empty-slot string with `u` put just before the trailer. */
  lemma FillSlot(x: string, h: string, u: string, t: string)
    ensures var f := x + (h + "" + t);
      |t| <= |f| && x + (h + u + t) == f[..|f| - |t|] + u + t
  {
    var f := x + (h + "" + t);
    DropEmpty(h, "", t);
    assert f[..|f| - |t|] == x + h;
  }

  lemma OccursEnd(a: string, t: string)
    ensures Occurs(t, a + t)
  {
    EndsWithConcat(a, t);
    EndsWithOccurs(a + t, t);
  }

  /** An occurrence survives appending text on the right. */
  lemma OccursExtend(t: string, s: string, b: string)
    requires Occurs(t, s)
    ensures Occurs(t, s + b)
  {
    var i :| 0 <= i <= |s| && t <= s[i..];
    assert (s + b)[i..] == s[i..] + b;
    OccursAt(s + b, i, t);
  }

  lemma StartsWithExtend(s: string, p: string, b: string)
    requires StartsWith(s, p)
    ensures StartsWith(s + b, p)
  {
    assert (s + b)[..|p|] == s[..|p|];
  }

  /** `toLowerCase` on one character, for the ASCII letters. */
  function LowerChar(c: char): char {
    if 'A' <= c <= 'Z' then (c as int + 32) as char else c
  }

  /** `s.toLowerCase()`, restricted to ASCII case mapping. */
  function Lower(s: string): (r: string)
    ensures |r| == |s|
    ensures forall i :: 0 <= i < |s| ==> r[i] == LowerChar(s[i])
  {
    if s == [] then [] else [LowerChar(s[0])] + Lower(s[1..])
  }

  /** Lower-casing twice is lower-casing once. */
  lemma {:induction false} LowerIdempotent(s: string)
    ensures Lower(Lower(s)) == Lower(s)
  {
    if s != [] {
      LowerIdempotent(s[1..]);
      assert Lower(s)[1..] == Lower(s[1..]);
    }
  }

  /** Lower-casing changes only the letters A to Z. */
  lemma LowerNoUpper(s: string)
    ensures forall i :: 0 <= i < |s| ==> !('A' <= Lower(s)[i] <= 'Z')
    ensures (forall i :: 0 <= i < |s| ==> !('A' <= s[i] <= 'Z')) ==> Lower(s) == s
  {
  }
}
