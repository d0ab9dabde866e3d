/** The JavaScript string operations the core relies on, over `seq<char>`. */
module Strings {

  /** `s.startsWith(p)` */
  predicate IsPrefix(p: string, s: string) {
    |p| <= |s| && s[..|p|] == p
  }

  /** `s.includes(sub)`: some window of `s` equals `sub`. */
  predicate Contains(s: string, sub: string)
    decreases |s|
  {
    IsPrefix(sub, s) || (|s| > 0 && Contains(s[1..], sub))
  }

  /** `includes` finds exactly the substrings that occur between some prefix and some suffix. */
  lemma {:induction false} ContainsInside(pre: string, sub: string, post: string)
    ensures Contains(pre + sub + post, sub)
    decreases |pre|
  {
    if pre == [] {
      assert pre + sub + post == sub + post;
      assert (sub + post)[..|sub|] == sub;
    } else {
      assert (pre + sub + post)[1..] == pre[1..] + sub + post;
      ContainsInside(pre[1..], sub, post);
    }
  }

  lemma {:induction false} ContainsSplit(s: string, sub: string) returns (pre: string, post: string)
    requires Contains(s, sub)
    ensures s == pre + sub + post
    decreases |s|
  {
    if IsPrefix(sub, s) {
      pre, post := [], s[|sub|..];
      assert s == s[..|sub|] + s[|sub|..];
    } else {
      var p, q := ContainsSplit(s[1..], sub);
      pre, post := [s[0]] + p, q;
      assert s == [s[0]] + s[1..];
    }
  }

  /** A substring of a substring is a substring. */
  lemma ContainsTrans(s: string, t: string, u: string)
    requires Contains(s, t) && Contains(t, u)
    ensures Contains(s, u)
  {
    var p1, q1 := ContainsSplit(s, t);
    var p2, q2 := ContainsSplit(t, u);
    assert s == (p1 + p2) + u + (q2 + q1);
    ContainsInside(p1 + p2, u, q2 + q1);
  }

  /** A substring of a part is a substring of anything the part is spliced into. */
  lemma ContainsWithin(pre: string, t: string, post: string, u: string)
    requires Contains(t, u)
    ensures Contains(pre + t + post, u)
  {
    ContainsInside(pre, t, post);
    ContainsTrans(pre + t + post, t, u);
  }

  /** `xs.map(f).join('')` */
  function JoinMap<T>(xs: seq<T>, f: T -> string): string
  {
    if xs == [] then "" else f(xs[0]) + JoinMap(xs[1..], f)
  }

  /** Joining distributes over concatenation of the input list. */
  lemma {:induction false} JoinMapAppend<T>(a: seq<T>, b: seq<T>, f: T -> string)
    ensures JoinMap(a + b, f) == JoinMap(a, f) + JoinMap(b, f)
  {
    if a == [] {
      assert a + b == b;
    } else {
      assert (a + b)[0] == a[0];
      assert (a + b)[1..] == a[1..] + b;
      JoinMapAppend(a[1..], b, f);
    }
  }

  /** The fragment of element `i` sits between the fragments of the elements before and after it. */
  lemma {:induction false} JoinMapAt<T>(xs: seq<T>, f: T -> string, i: nat)
    requires i < |xs|
    ensures JoinMap(xs, f) == JoinMap(xs[..i], f) + f(xs[i]) + JoinMap(xs[i + 1..], f)
  {
    if i == 0 {
      assert xs[..0] == [];
    } else {
      var tail := xs[1..];
      JoinMapAt(tail, f, i - 1);
      assert tail[..i - 1] == xs[1..i];
      assert tail[i - 1] == xs[i];
      assert tail[i..] == xs[i + 1..];
      assert xs[..i][0] == xs[0] && xs[..i][1..] == xs[1..i];
      var a, b, c := JoinMap(xs[1..i], f), f(xs[i]), JoinMap(xs[i + 1..], f);
      calc {
        JoinMap(xs, f);
        f(xs[0]) + JoinMap(tail, f);
        f(xs[0]) + (a + b + c);
        { assert f(xs[0]) + (a + b + c) == (f(xs[0]) + a) + b + c; }
        (f(xs[0]) + a) + b + c;
        JoinMap(xs[..i], f) + b + c;
      }
    }
  }

  /** Fragments appear in list order: that of element `i` strictly before that of a later element `j`. */
  lemma JoinMapOrder<T>(xs: seq<T>, f: T -> string, i: nat, j: nat)
    requires i < j < |xs|
    ensures JoinMap(xs, f)
         == JoinMap(xs[..i], f) + f(xs[i]) + JoinMap(xs[i + 1..j], f) + f(xs[j]) + JoinMap(xs[j + 1..], f)
  {
    var rest := xs[i + 1..];
    JoinMapAt(xs, f, i);
    JoinMapAt(rest, f, j - i - 1);
    SliceOfSlice(xs, i, j);
    Regroup(JoinMap(xs[..i], f), f(xs[i]), JoinMap(xs[i + 1..j], f), f(xs[j]), JoinMap(xs[j + 1..], f));
  }

  lemma SliceOfSlice<T>(xs: seq<T>, i: nat, j: nat)
    requires i < j < |xs|
    ensures xs[i + 1..][..j - i - 1] == xs[i + 1..j]
    ensures xs[i + 1..][j - i - 1] == xs[j]
    ensures xs[i + 1..][j - i..] == xs[j + 1..]
  {
  }

  lemma Regroup(p: string, a: string, m: string, b: string, q: string)
    ensures p + a + (m + b + q) == p + a + m + b + q
  {
  }

  /** The fragment of every element occurs in the joined string. */
  lemma JoinMapContains<T>(xs: seq<T>, f: T -> string, i: nat)
    requires i < |xs|
    ensures Contains(JoinMap(xs, f), f(xs[i]))
  {
    JoinMapAt(xs, f, i);
    ContainsInside(JoinMap(xs[..i], f), f(xs[i]), JoinMap(xs[i + 1..], f));
  }

  /**
   * `String.prototype.toLowerCase` on one character. Covers ASCII, Latin-1, the Turkish
   * capitals, and the two characters outside those whose lower case holds an ASCII letter:
   * U+0130 (capital I with dot) becomes "i" followed by U+0307, and U+212A (Kelvin sign) "k".
   */
  function LowerChar(c: char): (r: string)
    ensures 1 <= |r| <= 2
    ensures 'a' <= c <= 'z' ==> r == [c]
    ensures 'A' <= c <= 'Z' ==> r == [(c as int + 32) as char]
  {
    if 'A' <= c <= 'Z' then [(c as int + 32) as char]
    else if '\U{C0}' <= c <= '\U{DE}' && c != '\U{D7}' then [(c as int + 32) as char]
    else if c == '\U{130}' then "i\U{307}"
    else if c == '\U{212A}' then "k"
    else if c == '\U{11E}' || c == '\U{15E}' then [(c as int + 1) as char]
    else [c]
  }

  /** `s.toLowerCase()`: each character becomes one or two. */
  function ToLower(s: string): (r: string)
    ensures |s| <= |r| <= 2 * |s|
  {
    if s == [] then "" else LowerChar(s[0]) + ToLower(s[1..])
  }

  /** `s.split(' ')[0]`: the longest prefix without a space, which ends where `s` or its first space does. */
  function FirstWord(s: string): (r: string)
    ensures IsPrefix(r, s)
    ensures forall i :: 0 <= i < |r| ==> r[i] != ' '
    ensures r == s || s[|r|] == ' '
  {
    if s == [] || s[0] == ' ' then "" else [s[0]] + FirstWord(s[1..])
  }

  /** `s.endsWith(p)` */
  predicate IsSuffix(p: string, s: string) {
    |p| <= |s| && s[|s| - |p|..] == p
  }

  function Verbatim(s: string): string { s }

  /** The parts of a template, joined in order. */
  function Concat(parts: seq<string>): string
  {
    JoinMap(parts, Verbatim)
  }

  /** Every part of a template occurs in the joined text. */
  lemma ConcatContains(parts: seq<string>, i: nat)
    requires i < |parts|
    ensures Contains(Concat(parts), parts[i])
  {
    JoinMapContains(parts, Verbatim, i);
  }

  /** The joined text around one of its parts. */
  lemma ConcatSplit(parts: seq<string>, k: nat) returns (pre: string, post: string)
    requires k < |parts|
    ensures Concat(parts) == pre + parts[k] + post
  {
    JoinMapAt(parts, Verbatim, k);
    pre, post := JoinMap(parts[..k], Verbatim), JoinMap(parts[k + 1..], Verbatim);
  }

  /** The joined text starts with the first part and ends with the last. */
  lemma ConcatEnds(parts: seq<string>)
    requires |parts| > 0
    ensures IsPrefix(parts[0], Concat(parts))
    ensures IsSuffix(parts[|parts| - 1], Concat(parts))
  {
    var n := |parts|;
    JoinMapAt(parts, Verbatim, 0);
    JoinMapAt(parts, Verbatim, n - 1);
    assert parts[n..] == [];
    PrefixSuffixOf(JoinMap(parts[..0], Verbatim), parts[0], JoinMap(parts[1..], Verbatim));
    PrefixSuffixOf(JoinMap(parts[..n - 1], Verbatim), parts[n - 1], JoinMap(parts[n..], Verbatim));
  }

  lemma PrefixSuffixOf(pre: string, x: string, post: string)
    ensures pre == [] ==> IsPrefix(x, pre + x + post)
    ensures post == [] ==> IsSuffix(x, pre + x + post)
  {
    if pre == [] {
      assert (pre + x + post)[..|x|] == x;
    }
    if post == [] {
      assert (pre + x + post)[|pre + x + post| - |x|..] == x;
    }
  }

  /** `x` occurs in `s` and, entirely after it, `y` occurs. */
  ghost predicate OccursBefore(s: string, x: string, y: string) {
    exists i: nat, j: nat :: OccursAt(s, x, i) && OccursAt(s, y, j) && i + |x| <= j
  }

  /** `x` occurs in `s` at offset `i`. */
  predicate OccursAt(s: string, x: string, i: nat) {
    i + |x| <= |s| && s[i..i + |x|] == x
  }

  lemma OccursBeforeSplit(a: string, x: string, b: string, y: string, c: string)
    ensures OccursBefore(a + x + b + y + c, x, y)
  {
    var s := a + x + b + y + c;
    var i, j := |a|, |a| + |x| + |b|;
    assert s[i..i + |x|] == x;
    assert s[j..j + |y|] == y;
    assert OccursAt(s, x, i) && OccursAt(s, y, j);
  }

  /** Order is kept when a text is spliced into a larger one. */
  lemma OccursBeforeWithin(pre: string, t: string, post: string, x: string, y: string)
    requires OccursBefore(t, x, y)
    ensures OccursBefore(pre + t + post, x, y)
  {
    var i: nat, j: nat :| OccursAt(t, x, i) && OccursAt(t, y, j) && i + |x| <= j;
    var s := pre + t + post;
    assert s[|pre| + i..|pre| + i + |x|] == t[i..i + |x|];
    assert s[|pre| + j..|pre| + j + |y|] == t[j..j + |y|];
    assert OccursAt(s, x, |pre| + i) && OccursAt(s, y, |pre| + j);
  }

  /** Under `JoinMap`, the fragment of an earlier element occurs before that of a later one. */
  lemma JoinMapOccursBefore<T>(xs: seq<T>, f: T -> string, i: nat, j: nat)
    requires i < j < |xs|
    ensures OccursBefore(JoinMap(xs, f), f(xs[i]), f(xs[j]))
  {
    JoinMapOrder(xs, f, i, j);
    OccursBeforeSplit(JoinMap(xs[..i], f), f(xs[i]), JoinMap(xs[i + 1..j], f), f(xs[j]), JoinMap(xs[j + 1..], f));
  }

  /** Order inside one part of a template is kept in the joined text. */
  lemma ConcatOccursBefore(parts: seq<string>, k: nat, x: string, y: string)
    requires k < |parts| && OccursBefore(parts[k], x, y)
    ensures OccursBefore(Concat(parts), x, y)
  {
    JoinMapAt(parts, Verbatim, k);
    OccursBeforeWithin(JoinMap(parts[..k], Verbatim), parts[k], JoinMap(parts[k + 1..], Verbatim), x, y);
  }

  lemma Concat3(a: string, b: string, c: string)
    ensures Concat([a, b, c]) == a + b + c
  {
    var parts := [a, b, c];
    assert parts[1..] == [b, c] && parts[1..][1..] == [c] && parts[1..][1..][1..] == [];
    assert JoinMap([c], Verbatim) == c + JoinMap([], Verbatim);
    assert JoinMap([b, c], Verbatim) == b + JoinMap([c], Verbatim);
    assert JoinMap(parts, Verbatim) == a + JoinMap([b, c], Verbatim);
  }
}
