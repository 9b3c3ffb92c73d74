/**
 * String primitives the JavaScript core relies on: `split('\n')`, `startsWith`,
 * `trim()`, and the ASCII case-insensitive matching of a `/^(...)/i` regular
 * expression. Strings are `seq<char>`.
 */
module Text {

  /** `s.startsWith(p)` */
  predicate StartsWith(s: string, p: string) {
    |p| <= |s| && s[..|p|] == p
  }

  /** Concatenation of a sequence of strings. */
  function Concat(ss: seq<string>): string {
    if ss == [] then [] else ss[0] + Concat(ss[1..])
  }

  /** Appending one more string to the list appends it to the concatenation. */
  lemma {:induction false} ConcatSnoc(ss: seq<string>, s: string)
    ensures Concat(ss + [s]) == Concat(ss) + s
  {
    if ss == [] {
      assert ss + [s] == [s];
    } else {
      assert (ss + [s])[1..] == ss[1..] + [s];
      ConcatSnoc(ss[1..], s);
    }
  }

  /** The concatenation of one more prefix element. */
  lemma ConcatPrefix(ss: seq<string>, i: nat)
    requires i < |ss|
    ensures Concat(ss[..i + 1]) == Concat(ss[..i]) + ss[i]
  {
    assert ss[..i + 1] == ss[..i] + [ss[i]];
    ConcatSnoc(ss[..i], ss[i]);
  }

  /** Joins pieces with `'\n'`: the inverse of `Split`. */
  function JoinLines(ss: seq<string>): string
    requires |ss| >= 1
  {
    if |ss| == 1 then ss[0] else ss[0] + "\n" + JoinLines(ss[1..])
  }

  /**
   * `s.split('\n')` in JavaScript: the pieces between newline characters, in order.
   * There is always at least one piece ("" gives [""]; "a\n" gives ["a", ""]).
   */
  function Split(s: string): (r: seq<string>)
    ensures |r| >= 1
    ensures forall i :: 0 <= i < |r| ==> '\n' !in r[i]
    decreases |s|
  {
    if |s| == 0 then [[]]
    else
      var rest := Split(s[1..]);
      if s[0] == '\n' then [[]] + rest
      else [[s[0]] + rest[0]] + rest[1..]
  }

  /** Joining the pieces of a split with newlines gives the text back. */
  lemma {:induction false} SplitJoin(s: string)
    ensures JoinLines(Split(s)) == s
    decreases |s|
  {
    if |s| > 0 {
      var rest := Split(s[1..]);
      SplitJoin(s[1..]);
      if s[0] == '\n' {
        assert ([[]] + rest)[1..] == rest;
      } else {
        JoinHead(s[0], rest);
      }
      assert s == [s[0]] + s[1..];
    }
  }

  lemma {:induction false} JoinHead(c: char, rest: seq<string>)
    requires |rest| >= 1
    ensures JoinLines([[c] + rest[0]] + rest[1..]) == [c] + JoinLines(rest)
  {
    var r := [[c] + rest[0]] + rest[1..];
    if |rest| == 1 {
    } else {
      assert r[1..] == rest[1..];
    }
  }

  /** The last piece of a split: the text after the last newline. */
  function Last(ss: seq<string>): string
    requires |ss| >= 1
  {
    ss[|ss| - 1]
  }

  /** Every piece but the last: the complete lines of a split. */
  function AllButLast(ss: seq<string>): seq<string>
    requires |ss| >= 1
  {
    ss[..|ss| - 1]
  }

  /** Splitting around one newline splits each side independently. */
  lemma {:induction false} SplitAroundNewline(a: string, b: string)
    ensures Split(a + "\n" + b) == Split(a) + Split(b)
    decreases |a|
  {
    if |a| == 0 {
      var s := a + "\n" + b;
      assert s[0] == '\n' && s[1..] == b;
    } else {
      SplitAroundNewline(a[1..], b);
      assert a + "\n" + b == [a[0]] + (a[1..] + "\n" + b);
      assert a == [a[0]] + a[1..];
      ConsAppend(a[0], a[1..] + "\n" + b, a[1..], Split(b));
    }
  }

  /** Putting a character in front of two texts whose splits differ by a common tail keeps that tail. */
  lemma ConsAppend(c: char, t: string, u: string, rest: seq<string>)
    requires Split(t) == Split(u) + rest
    ensures Split([c] + t) == Split([c] + u) + rest
  {
    var ct, cu := [c] + t, [c] + u;
    var ru := Split(u);
    if c == '\n' {
      assert Split(ct) == [[]] + (ru + rest) by {
        assert ct[0] == c && ct[1..] == t;
        SplitCons(ct);
      }
      assert Split(cu) == [[]] + ru by {
        assert cu[0] == c && cu[1..] == u;
        SplitCons(cu);
      }
      AppendAssoc([[]], ru, rest);
    } else {
      var h := [[c] + ru[0]];
      assert Split(ct) == h + (ru[1..] + rest) by {
        assert ct[0] == c && ct[1..] == t;
        SplitCons(ct);
        assert (ru + rest)[0] == ru[0] && (ru + rest)[1..] == ru[1..] + rest;
      }
      assert Split(cu) == h + ru[1..] by {
        assert cu[0] == c && cu[1..] == u;
        SplitCons(cu);
      }
      AppendAssoc(h, ru[1..], rest);
    }
  }

  /** Concatenation is associative. */
  lemma AppendAssoc<T>(x: seq<T>, y: seq<T>, z: seq<T>)
    ensures x + (y + z) == (x + y) + z
  {
  }

  /** A slice is the concatenation of its two parts around any inner point. */
  lemma SliceJoin(s: string, a: nat, b: nat, c: nat)
    requires a <= b <= c <= |s|
    ensures s[a..c] == s[a..b] + s[b..c]
  {
  }

  /** When a slice is a concatenation, each part is a slice of its own. */
  lemma SliceParts(s: string, a: nat, c: nat, x: string, y: string)
    requires a + |x| <= c <= |s| && s[a..c] == x + y
    ensures s[a..a + |x|] == x && s[a + |x|..c] == y
  {
    assert s[a..a + |x|] == s[a..c][..|x|];
    assert s[a + |x|..c] == s[a..c][|x|..];
  }

  /** One step of `Split`: the first character either ends the first piece or joins it. */
  lemma SplitCons(s: string)
    requires s != []
    ensures s[0] == '\n' ==> Split(s) == [[]] + Split(s[1..])
    ensures s[0] != '\n' ==> Split(s) == [[s[0]] + Split(s[1..])[0]] + Split(s[1..])[1..]
  {
  }

  /** A text without a newline is a single piece. */
  lemma {:induction false} SplitWithoutNewline(s: string)
    requires '\n' !in s
    ensures Split(s) == [s]
    decreases |s|
  {
    if s != [] {
      assert '\n' !in s[1..];
      SplitWithoutNewline(s[1..]);
      assert s == [s[0]] + s[1..];
    }
  }

  /** The position of the last newline of a text that has one. */
  function LastNewline(s: string): (i: nat)
    requires '\n' in s
    ensures i < |s| && s[i] == '\n' && '\n' !in s[i + 1..]
  {
    if s[|s| - 1] == '\n' then |s| - 1
    else
      var t := s[..|s| - 1];
      assert '\n' in t by {
        var k :| 0 <= k < |s| && s[k] == '\n';
        assert t[k] == '\n';
      }
      var i := LastNewline(t);
      assert s[i + 1..] == t[i + 1..] + [s[|s| - 1]];
      i
  }

  /**
   * Appending text to `x` only touches the last piece of its split: the complete
   * lines of `x` stay as they are.
   */
  lemma SplitAppend(x: string, y: string)
    ensures Split(x + y) == AllButLast(Split(x)) + Split(Last(Split(x)) + y)
  {
    if '\n' !in x {
      SplitWithoutNewline(x);
      assert AllButLast([x]) == [];
    } else {
      var i := LastNewline(x);
      var a, b := x[..i], x[i + 1..];
      assert Split(x) == Split(a) + [b] by {
        assert x == a + "\n" + b;
        SplitAroundNewline(a, b);
        SplitWithoutNewline(b);
      }
      assert Split(x + y) == Split(a) + Split(b + y) by {
        assert x + y == a + "\n" + (b + y);
        SplitAroundNewline(a, b + y);
      }
      assert AllButLast(Split(a) + [b]) == Split(a);
    }
  }

  // ---------------------------------------------------------------------------
  // Whitespace and trim()

  /**
   * The code point ranges of the characters JavaScript's `String.prototype.trim`
   * removes (WhiteSpace and LineTerminator): tab to carriage return, space,
   * no-break space, ogham space mark, U+2000 to U+200A, line and paragraph
   * separators, narrow no-break space, medium mathematical space, ideographic
   * space and the byte order mark.
   */
  const JsSpaceRanges: seq<(char, char)> := [
    ('\t', '\r'), (' ', ' '), ('\U{A0}', '\U{A0}'), ('\U{1680}', '\U{1680}'),
    ('\U{2000}', '\U{200A}'), ('\U{2028}', '\U{2029}'), ('\U{202F}', '\U{202F}'),
    ('\U{205F}', '\U{205F}'), ('\U{3000}', '\U{3000}'), ('\U{FEFF}', '\U{FEFF}')]

  predicate InRanges(c: char, ranges: seq<(char, char)>) {
    ranges != [] && (ranges[0].0 <= c <= ranges[0].1 || InRanges(c, ranges[1..]))
  }

  predicate IsJsSpace(c: char) {
    InRanges(c, JsSpaceRanges)
  }

  lemma {:induction false} NotInRanges(c: char, ranges: seq<(char, char)>)
    requires forall i :: 0 <= i < |ranges| ==> !(ranges[i].0 <= c <= ranges[i].1)
    ensures !InRanges(c, ranges)
    decreases |ranges|
  {
    if ranges != [] {
      NotInRanges(c, ranges[1..]);
    }
  }

  /** A visible ASCII character is not whitespace. */
  lemma VisibleAsciiIsNotSpace(c: char)
    requires '!' <= c <= '~'
    ensures !IsJsSpace(c)
  {
    NotInRanges(c, JsSpaceRanges);
  }

  /** Every character of `s` from index `a` up to (not including) `b` is whitespace. */
  predicate SpaceBetween(s: string, a: int, b: int) {
    forall k :: a <= k < b && 0 <= k < |s| ==> IsJsSpace(s[k])
  }

  /**
   * `s.trim()`: leading whitespace is removed one character at a time, then
   * trailing whitespace, until neither end is whitespace.
   */
  function Trim(s: string): (r: string)
    ensures |r| <= |s|
    ensures r == [] || (!IsJsSpace(r[0]) && !IsJsSpace(r[|r| - 1]))
    decreases |s|
  {
    if s != [] && IsJsSpace(s[0]) then Trim(s[1..])
    else if s != [] && IsJsSpace(s[|s| - 1]) then Trim(s[..|s| - 1])
    else s
  }

  /**
   * `trim()` only cuts whitespace: the result is an inner slice of `s` and every
   * character before and after that slice is whitespace.
   */
  lemma {:induction false} TrimCutsOnlySpace(s: string)
    ensures exists i: nat :: CutAt(s, Trim(s), i)
    decreases |s|
  {
    var r := Trim(s);
    if s != [] && IsJsSpace(s[0]) {
      TrimCutsOnlySpace(s[1..]);
      var i: nat :| CutAt(s[1..], r, i);
      CutFront(s, r, i);
    } else if s != [] && IsJsSpace(s[|s| - 1]) {
      TrimCutsOnlySpace(s[..|s| - 1]);
      var i: nat :| CutAt(s[..|s| - 1], r, i);
      CutBack(s, r, i);
    } else {
      assert r == s && s[0..|s|] == s;
      assert CutAt(s, r, 0);
    }
  }

  /** `r` is the slice of `s` at `i`, and everything around it is whitespace. */
  predicate CutAt(s: string, r: string, i: nat) {
    i + |r| <= |s| && r == s[i..i + |r|] && SpaceBetween(s, 0, i) && SpaceBetween(s, i + |r|, |s|)
  }

  /** A cut of `s` without its leading whitespace character is a cut of `s`, one further along. */
  lemma CutFront(s: string, r: string, i: nat)
    requires s != [] && IsJsSpace(s[0]) && CutAt(s[1..], r, i)
    ensures CutAt(s, r, i + 1)
  {
    assert s[1..][i..i + |r|] == s[i + 1..i + 1 + |r|];
    forall k | 0 <= k < |s| && (k < i + 1 || i + 1 + |r| <= k) ensures IsJsSpace(s[k]) {
      if k > 0 { assert s[k] == s[1..][k - 1]; }
    }
  }

  /** A cut of `s` without its trailing whitespace character is a cut of `s`. */
  lemma CutBack(s: string, r: string, i: nat)
    requires s != [] && IsJsSpace(s[|s| - 1]) && CutAt(s[..|s| - 1], r, i)
    ensures CutAt(s, r, i)
  {
    var t := s[..|s| - 1];
    assert t[i..i + |r|] == s[i..i + |r|];
    forall k | 0 <= k < |s| && (k < i || i + |r| <= k) ensures IsJsSpace(s[k]) {
      if k < |t| { assert s[k] == t[k]; }
    }
  }

  /** Trimming a word followed by one whitespace character gives the word back. */
  lemma TrimOneTrailingSpace(w: string, sp: char)
    requires w != [] && !IsJsSpace(w[0]) && !IsJsSpace(w[|w| - 1]) && IsJsSpace(sp)
    ensures Trim(w + [sp]) == w
  {
    var c := w + [sp];
    assert c[0] == w[0] && c[|c| - 1] == sp;
    assert c[..|c| - 1] == w;
  }

  // ---------------------------------------------------------------------------
  // ASCII case folding, as used by a `/.../i` regular expression whose pattern is ASCII.

  function LowerAscii(c: char): (d: char)
    ensures 'A' <= c <= 'Z' ==> 'a' <= d <= 'z'
    ensures !('A' <= c <= 'Z') ==> d == c
  {
    if 'A' <= c <= 'Z' then (c as int + 32) as char else c
  }

  /** `s` starts with `p`, comparing letters without regard to ASCII case. */
  predicate StartsWithIgnoringCase(s: string, p: string) {
    |p| <= |s| && AgreeFrom(s, p, 0)
  }

  /** From index `k` to the end of `p`, `s` and `p` agree up to ASCII case. */
  predicate AgreeFrom(s: string, p: string, k: nat)
    requires |p| <= |s|
    decreases |p| - k
  {
    k >= |p| || (LowerAscii(s[k]) == LowerAscii(p[k]) && AgreeFrom(s, p, k + 1))
  }

  /** The case-insensitive prefix test compares every character of `p` with the one of `s` at the same index. */
  lemma {:induction false} AgreeFromMeans(s: string, p: string, k: nat)
    requires |p| <= |s|
    ensures AgreeFrom(s, p, k) <==> forall i :: k <= i < |p| ==> LowerAscii(s[i]) == LowerAscii(p[i])
    decreases |p| - k
  {
    if k < |p| {
      AgreeFromMeans(s, p, k + 1);
    }
  }

  function LowerAll(s: string): (r: string)
    ensures |r| == |s| && forall i :: 0 <= i < |s| ==> r[i] == LowerAscii(s[i])
  {
    seq(|s|, i requires 0 <= i < |s| => LowerAscii(s[i]))
  }

  /** Case folding never changes whether a case-insensitive prefix matches. */
  lemma LowerAllKeepsPrefixMatch(s: string, p: string)
    ensures StartsWithIgnoringCase(s, p) <==> StartsWithIgnoringCase(LowerAll(s), p)
  {
    if |p| <= |s| {
      AgreeFromMeans(s, p, 0);
      AgreeFromMeans(LowerAll(s), p, 0);
      forall i | 0 <= i < |p| ensures LowerAscii(LowerAll(s)[i]) == LowerAscii(s[i]) {
        LowerIdempotent(s[i]);
      }
    }
  }

  lemma LowerIdempotent(c: char)
    ensures LowerAscii(LowerAscii(c)) == LowerAscii(c)
  {
  }
}
