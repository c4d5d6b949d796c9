/**
 * The Python `str` built-ins the knowledge-base pipeline relies on, over `seq<char>`:
 * `str.split()` (runs of whitespace), `str.split(sep)` for a one-character separator,
 * `str.strip()`, `sep.join(xs)`, the substring test `sub in s`, and `str.count`.
 */
module PyStr {

  /** Python's `str.isspace` for one character: the set `str.split()` and `str.strip()` cut on. */
  predicate IsSpace(c: char) {
    || c == ' '
    || ('\t' <= c <= '\r')
    || ('\U{1c}' <= c <= '\U{1f}')
    || c == '\U{85}' || c == '\U{a0}' || c == '\U{1680}'
    || ('\U{2000}' <= c <= '\U{200a}')
    || c == '\U{2028}' || c == '\U{2029}' || c == '\U{202f}' || c == '\U{205f}' || c == '\U{3000}'
  }

  predicate NoSpace(s: string) {
    forall i :: 0 <= i < |s| ==> !IsSpace(s[i])
  }

  predicate AllSpace(s: string) {
    forall i :: 0 <= i < |s| ==> IsSpace(s[i])
  }

  /** Neither starts nor ends with whitespace: what `str.strip()` returns. */
  predicate Trimmed(s: string) {
    s == [] || (!IsSpace(s[0]) && !IsSpace(s[|s| - 1]))
  }

  /** What `str.split()` can return: non-empty words without whitespace. */
  predicate IsWordList(ws: seq<string>) {
    forall i :: 0 <= i < |ws| ==> |ws[i]| > 0 && NoSpace(ws[i])
  }

  /** `s.count(c)` for a single character. */
  function Count(s: string, c: char): nat {
    if s == [] then 0 else (if s[0] == c then 1 else 0) + Count(s[1..], c)
  }

  /** Length of the run of non-whitespace characters that starts `s`. */
  function WordLen(s: string): (n: nat)
    ensures n <= |s|
    ensures NoSpace(s[..n])
    ensures n < |s| ==> IsSpace(s[n])
    ensures |s| > 0 && !IsSpace(s[0]) ==> n > 0
  {
    if s == [] || IsSpace(s[0]) then 0
    else
      var n := 1 + WordLen(s[1..]);
      assert s[..n] == [s[0]] + s[1..][..n - 1];
      n
  }

  /** `s.split()`: the maximal runs of non-whitespace characters, in order. */
  function SplitWords(s: string): (ws: seq<string>)
    ensures IsWordList(ws)
    decreases |s|
  {
    if s == [] then []
    else if IsSpace(s[0]) then SplitWords(s[1..])
    else
      var n := WordLen(s);
      [s[..n]] + SplitWords(s[n..])
  }

  /** The summed length of the parts. */
  function TotalLength(xs: seq<string>): nat {
    if xs == [] then 0 else |xs[0]| + TotalLength(xs[1..])
  }

  /** `sep.join(xs)`: the parts in order, one separator between each two, starting with the first part. */
  function JoinWith(sep: string, xs: seq<string>): (r: string)
    ensures xs == [] ==> r == ""
    ensures xs != [] ==> |r| == TotalLength(xs) + |sep| * (|xs| - 1) && r[..|xs[0]|] == xs[0]
    ensures |xs| == 1 ==> r == xs[0]
  {
    if xs == [] then ""
    else if |xs| == 1 then xs[0]
    else
      var rest := JoinWith(sep, xs[1..]);
      assert |sep| * (|xs| - 1) == |sep| + |sep| * (|xs[1..]| - 1);
      xs[0] + sep + rest
  }

  /** Joining two non-empty lists is joining each and putting one separator between them. */
  lemma {:induction false} JoinWithAppend(sep: string, a: seq<string>, b: seq<string>)
    requires a != [] && b != []
    ensures JoinWith(sep, a + b) == JoinWith(sep, a) + sep + JoinWith(sep, b)
  {
    assert (a + b)[0] == a[0] && (a + b)[1..] == a[1..] + b;
    if |a| > 1 {
      JoinWithAppend(sep, a[1..], b);
    }
  }

  lemma {:induction false} WordLenOfWord(w: string, rest: string)
    requires NoSpace(w)
    requires rest == [] || IsSpace(rest[0])
    ensures WordLen(w + rest) == |w|
  {
    if w != [] {
      assert (w + rest)[1..] == w[1..] + rest;
      WordLenOfWord(w[1..], rest);
    }
  }

  /** Splitting words joined by single spaces gives the words back. */
  lemma {:induction false} SplitJoinWords(ws: seq<string>)
    requires IsWordList(ws)
    ensures SplitWords(JoinWith(" ", ws)) == ws
  {
    if |ws| == 1 {
      WordLenOfWord(ws[0], []);
      assert ws[0] + [] == ws[0];
      assert ws[0][|ws[0]|..] == [];
    } else if |ws| > 1 {
      var w, tail := ws[0], JoinWith(" ", ws[1..]);
      var j := JoinWith(" ", ws);
      assert j == w + (" " + tail);
      WordLenOfWord(w, " " + tail);
      assert j[..|w|] == w;
      assert j[|w|..] == " " + tail;
      assert (" " + tail)[1..] == tail;
      SplitJoinWords(ws[1..]);
      assert ws == [w] + ws[1..];
    }
  }

  /** A run of non-whitespace ends where whitespace or the text begins. */
  lemma {:induction false} WordLenAppend(a: string, rest: string)
    requires rest == [] || IsSpace(rest[0])
    ensures WordLen(a + rest) == WordLen(a)
    decreases |a|
  {
    if a == [] {
      assert a + rest == rest;
    } else {
      assert (a + rest)[0] == a[0];
      if !IsSpace(a[0]) {
        assert (a + rest)[1..] == a[1..] + rest;
        WordLenAppend(a[1..], rest);
      }
    }
  }

  /** Whitespace alone splits into no words. */
  lemma {:induction false} SplitWordsAllSpace(sp: string)
    requires AllSpace(sp)
    ensures SplitWords(sp) == []
    decreases |sp|
  {
    if sp != [] {
      SplitWordsAllSpace(sp[1..]);
    }
  }

  /** Leading whitespace is skipped. */
  lemma {:induction false} SplitWordsLeadingSpace(sp: string, s: string)
    requires AllSpace(sp)
    ensures SplitWords(sp + s) == SplitWords(s)
    decreases |sp|
  {
    if sp == [] {
      assert sp + s == s;
    } else {
      assert (sp + s)[0] == sp[0];
      assert (sp + s)[1..] == sp[1..] + s;
      SplitWordsLeadingSpace(sp[1..], s);
    }
  }

  /** A single word splits into itself. */
  lemma SplitWordsWord(w: string)
    requires |w| > 0 && NoSpace(w)
    ensures SplitWords(w) == [w]
  {
    WordLenOfWord(w, []);
    assert w + [] == w;
    assert w[|w|..] == [];
  }

  /**
   * Any non-empty run of whitespace separates words, whatever its characters: the text around
   * it splits side by side.
   */
  lemma {:induction false} SplitWordsSeparated(a: string, sp: string, b: string)
    requires |sp| > 0 && AllSpace(sp)
    ensures SplitWords(a + sp + b) == SplitWords(a) + SplitWords(b)
    decreases |a|
  {
    var rest := sp + b;
    var s := a + sp + b;
    assert s == a + rest;
    if a == [] {
      assert s == rest;
      SplitWordsLeadingSpace(sp, b);
    } else if IsSpace(a[0]) {
      assert s[0] == a[0];
      assert s[1..] == a[1..] + sp + b;
      SplitWordsSeparated(a[1..], sp, b);
    } else {
      assert s[0] == a[0];
      WordLenAppend(a, rest);
      var n := WordLen(a);
      assert s[..n] == a[..n];
      assert s[n..] == a[n..] + sp + b;
      SplitWordsSeparated(a[n..], sp, b);
    }
  }

  /** `s.split(sep)` for a one-character separator: never empty, one more part than separators. */
  function SplitOn(s: string, sep: char): (parts: seq<string>)
    ensures |parts| == Count(s, sep) + 1
    ensures forall i :: 0 <= i < |parts| ==> sep !in parts[i]
  {
    if s == [] then [""]
    else
      var rest := SplitOn(s[1..], sep);
      if s[0] == sep then [""] + rest
      else [[s[0]] + rest[0]] + rest[1..]
  }

  /** Joining the parts of a split with the separator rebuilds the string. */
  lemma {:induction false} JoinSplitOn(s: string, sep: char)
    ensures JoinWith([sep], SplitOn(s, sep)) == s
  {
    if s != [] {
      var rest := SplitOn(s[1..], sep);
      JoinSplitOn(s[1..], sep);
      if s[0] == sep {
        assert SplitOn(s, sep) == [""] + rest;
        assert s == [sep] + s[1..];
      } else {
        var parts := SplitOn(s, sep);
        assert parts == [[s[0]] + rest[0]] + rest[1..];
        if |rest| == 1 {
          assert s == [s[0]] + s[1..];
        } else {
          assert rest == [rest[0]] + rest[1..];
          assert JoinWith([sep], rest) == rest[0] + [sep] + JoinWith([sep], rest[1..]);
          assert parts[1..] == rest[1..];
          assert s == [s[0]] + s[1..];
        }
      }
    }
  }

  lemma {:induction false} SplitOnPrefix(x: string, rest: string, sep: char)
    requires sep !in x
    ensures SplitOn(x + rest, sep) == [x + SplitOn(rest, sep)[0]] + SplitOn(rest, sep)[1..]
  {
    var tail := SplitOn(rest, sep);
    if x == [] {
      assert x + rest == rest;
      assert x + tail[0] == tail[0];
    } else {
      assert (x + rest)[1..] == x[1..] + rest;
      SplitOnPrefix(x[1..], rest, sep);
      var inner := SplitOn(x[1..] + rest, sep);
      assert inner[0] == x[1..] + tail[0] && inner[1..] == tail[1..];
      assert [x[0]] + inner[0] == x + tail[0];
    }
  }

  /** Splitting a join of separator-free parts gives the parts back (a join of nothing splits to `[""]`). */
  lemma {:induction false} SplitJoinOn(xs: seq<string>, sep: char)
    requires |xs| > 0
    requires forall i :: 0 <= i < |xs| ==> sep !in xs[i]
    ensures SplitOn(JoinWith([sep], xs), sep) == xs
  {
    if |xs| == 1 {
      SplitOnPrefix(xs[0], [], sep);
      assert xs[0] + [] == xs[0];
    } else {
      var tail := JoinWith([sep], xs[1..]);
      assert JoinWith([sep], xs) == xs[0] + ([sep] + tail);
      SplitOnPrefix(xs[0], [sep] + tail, sep);
      assert ([sep] + tail)[1..] == tail;
      SplitJoinOn(xs[1..], sep);
      var after := SplitOn([sep] + tail, sep);
      assert after == [""] + SplitOn(tail, sep);
      assert after[0] == "" && after[1..] == xs[1..];
      assert xs[0] + after[0] == xs[0];
      assert xs == [xs[0]] + xs[1..];
    }
  }

  /** `s.lstrip()`. */
  function LStrip(s: string): (r: string)
    ensures |r| <= |s| && r == s[|s| - |r|..]
    ensures AllSpace(s[..|s| - |r|])
    ensures r == [] || !IsSpace(r[0])
  {
    if s != [] && IsSpace(s[0]) then
      var r := LStrip(s[1..]);
      DropFirstSlices(s, r);
      r
    else s
  }

  /** What `s[1..]` says about a suffix `r` of it, restated on `s`. */
  lemma DropFirstSlices(s: string, r: string)
    requires s != [] && |r| <= |s| - 1 && r == s[1..][|s| - 1 - |r|..]
    ensures r == s[|s| - |r|..]
    ensures s[..|s| - |r|] == [s[0]] + s[1..][..|s| - 1 - |r|]
  {
  }

  /** `s.rstrip()`. */
  function RStrip(s: string): (r: string)
    ensures |r| <= |s| && r == s[..|r|]
    ensures AllSpace(s[|r|..])
    ensures r == [] || !IsSpace(r[|r| - 1])
  {
    if s != [] && IsSpace(s[|s| - 1]) then
      var r := RStrip(s[..|s| - 1]);
      assert s[|r|..] == s[..|s| - 1][|r|..] + [s[|s| - 1]];
      r
    else s
  }

  /** Where the stripped text starts: after the leading whitespace. */
  function StripStart(s: string): (i: nat)
    ensures i <= |s|
  {
    |s| - |LStrip(s)|
  }

  /**
   * `s.strip()`: the part of `s` between its leading and its trailing whitespace;
   * the result neither starts nor ends with whitespace.
   */
  function Strip(s: string): (r: string)
    ensures r == [] || (!IsSpace(r[0]) && !IsSpace(r[|r| - 1]))
    ensures StripStart(s) + |r| <= |s| && r == s[StripStart(s)..StripStart(s) + |r|]
    ensures AllSpace(s[..StripStart(s)]) && AllSpace(s[StripStart(s) + |r|..])
  {
    var l := LStrip(s);
    var r := RStrip(l);
    PrefixOfSuffix(s, l, r);
    r
  }

  /** A prefix `r` of a suffix `l` of `s` is a slice of `s`, and what follows it in `l` is the rest of `s`. */
  lemma PrefixOfSuffix(s: string, l: string, r: string)
    requires |l| <= |s| && l == s[|s| - |l|..]
    requires |r| <= |l| && r == l[..|r|]
    ensures r == s[|s| - |l|..|s| - |l| + |r|]
    ensures l[|r|..] == s[|s| - |l| + |r|..]
  {
  }

  /** Stripping only removes characters, so it introduces none. */
  lemma StripAvoids(s: string, c: char)
    requires c !in s
    ensures c !in Strip(s)
  {
    var r, i := Strip(s), StripStart(s);
    SliceAvoids(s, i, i + |r|, c);
  }

  lemma SliceAvoids(s: string, lo: nat, hi: nat, c: char)
    requires lo <= hi <= |s| && c !in s
    ensures c !in s[lo..hi]
  {
  }

  /** Leading whitespace before text that starts with a non-space is exactly what `lstrip` removes. */
  lemma {:induction false} LStripPadded(pre: string, x: string)
    requires AllSpace(pre)
    requires x == [] || !IsSpace(x[0])
    ensures LStrip(pre + x) == x
    decreases |pre|
  {
    if pre == [] {
      assert pre + x == x;
    } else {
      assert (pre + x)[0] == pre[0];
      assert (pre + x)[1..] == pre[1..] + x;
      LStripPadded(pre[1..], x);
    }
  }

  /** Trailing whitespace after text that ends with a non-space is exactly what `rstrip` removes. */
  lemma {:induction false} RStripPadded(x: string, post: string)
    requires AllSpace(post)
    requires x == [] || !IsSpace(x[|x| - 1])
    ensures RStrip(x + post) == x
    decreases |post|
  {
    if post == [] {
      assert x + post == x;
    } else {
      var s := x + post;
      assert s[|s| - 1] == post[|post| - 1];
      assert s[..|s| - 1] == x + post[..|post| - 1];
      RStripPadded(x, post[..|post| - 1]);
    }
  }

  /** Whitespace holds no character that is not whitespace. */
  lemma SpaceAvoids(sp: string, c: char)
    requires AllSpace(sp) && !IsSpace(c)
    ensures c !in sp
  {
  }

  /** Padding text that has no surrounding whitespace with whitespace on both sides: `strip` undoes it. */
  lemma StripPadded(pre: string, t: string, post: string)
    requires AllSpace(pre) && AllSpace(post)
    requires Trimmed(t)
    ensures Strip(pre + t + post) == t
  {
    if t == [] {
      var s := pre + t + post;
      assert s == (pre + post) + t;
      LStripPadded(pre + post, t);
    } else {
      assert pre + t + post == pre + (t + post);
      LStripPadded(pre, t + post);
      RStripPadded(t, post);
    }
  }

  /** A string already free of surrounding whitespace is its own strip, so `strip` is idempotent. */
  lemma StripStripped(s: string)
    requires Trimmed(s)
    ensures Strip(s) == s
  {
  }

  /** `sub` occurs in `s` starting at position `i`. */
  predicate OccursAt(s: string, sub: string, i: nat) {
    i + |sub| <= |s| && s[i..i + |sub|] == sub
  }

  /** Python's `sub in s`. */
  function Contains(s: string, sub: string): bool
    decreases |s|
  {
    if |s| < |sub| then false
    else if s[..|sub|] == sub then true
    else Contains(s[1..], sub)
  }

  /** `sub in s` holds exactly when `sub` occurs in `s` at some position. */
  lemma {:induction false} ContainsIsSubstring(s: string, sub: string)
    ensures Contains(s, sub) <==> exists i: nat :: OccursAt(s, sub, i)
    decreases |s|
  {
    if |s| < |sub| {
    } else if s[..|sub|] == sub {
      assert OccursAt(s, sub, 0);
    } else {
      ContainsIsSubstring(s[1..], sub);
      assert s[0..|sub|] == s[..|sub|];
      if i: nat :| OccursAt(s, sub, i) {
        assert i != 0;
        SliceOfTail(s, i - 1, |sub|);
        assert OccursAt(s[1..], sub, i - 1);
      }
      if Contains(s[1..], sub) {
        var j: nat :| OccursAt(s[1..], sub, j);
        SliceOfTail(s, j, |sub|);
        assert OccursAt(s, sub, j + 1);
      }
    }
  }

  /** A slice of `s[1..]` is the slice of `s` one position further on. */
  lemma SliceOfTail(s: string, j: nat, m: nat)
    requires j + 1 + m <= |s|
    ensures s[1..][j..j + m] == s[j + 1..j + 1 + m]
  {
  }

  /** A join never contains a character that neither the separator nor any part contains. */
  lemma {:induction false} JoinAvoids(sep: string, xs: seq<string>, c: char)
    requires c !in sep
    requires forall i :: 0 <= i < |xs| ==> c !in xs[i]
    ensures c !in JoinWith(sep, xs)
  {
    if |xs| > 1 {
      JoinAvoids(sep, xs[1..], c);
    }
  }

  /** The text before the first `c` (all of `s` when there is none), as `s.split(c)[0]`. */
  function UpTo(s: string, c: char): (r: string)
    ensures c !in r
    ensures |r| <= |s| && r == s[..|r|]
    ensures |r| < |s| ==> s[|r|] == c
  {
    if s == [] || s[0] == c then [] else [s[0]] + UpTo(s[1..], c)
  }

  lemma {:induction false} UpToPrefix(a: string, b: string, c: char)
    requires c !in a
    requires b != [] && b[0] == c
    ensures UpTo(a + b, c) == a
  {
    if a != [] {
      assert (a + b)[1..] == a[1..] + b;
      UpToPrefix(a[1..], b, c);
    } else {
      assert a + b == b;
    }
  }
}
