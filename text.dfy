/**
 * The Python `str` operations the segmenter relies on: `isspace`, the
 * `'##' in word` test, `word.replace('##', '')`, `strip()`, `split()` with no
 * separator and a per-character `lower()`. `JoinSpace` and `Collapse` are not
 * called by the segmenter: they are reference definitions for stating what
 * `split()` returns.
 */
module Text {

  /** `c.isspace()` in Python: the code points `str.split()` and `str.strip()` treat as whitespace. */
  predicate IsWhitespace(c: char) {
    || ('\t' <= c <= '\r')
    || ('\U{1C}' <= c <= ' ')
    || c == '\U{85}' || c == '\U{A0}' || c == '\U{1680}'
    || ('\U{2000}' <= c <= '\U{200A}')
    || c == '\U{2028}' || c == '\U{2029}' || c == '\U{202F}' || c == '\U{205F}' || c == '\U{3000}'
  }

  predicate NoWhitespace(s: string) {
    forall i :: 0 <= i < |s| ==> !IsWhitespace(s[i])
  }

  predicate AllWhitespace(s: string) {
    forall i :: 0 <= i < |s| ==> IsWhitespace(s[i])
  }

  /** What `str.split()` can return: a non-empty run of non-whitespace characters. */
  predicate IsWord(w: string) {
    w != [] && NoWhitespace(w)
  }

  // ---------------------------------------------------------------------------
  // The sub-word marker "##"
  // ---------------------------------------------------------------------------

  predicate StartsWithMarker(s: string) {
    |s| >= 2 && s[0] == '#' && s[1] == '#'
  }

  /** `'##' in s`. */
  predicate HasMarker(s: string) {
    exists i :: 0 <= i < |s| - 1 && s[i] == '#' && s[i + 1] == '#'
  }

  /** The characters of `s` other than '#', in order. */
  function Unhashed(s: string): (r: string)
    ensures |r| <= |s|
  {
    if s == [] then ""
    else (if s[0] == '#' then "" else [s[0]]) + Unhashed(s[1..])
  }

  /**
   * `s.replace('##', '')`: every occurrence of "##", taken left to right
   * without overlap, is deleted. The result holds no "##" (Python does not
   * rescan, yet no new occurrence can form), keeps every other character in
   * order, only ever deletes pairs of '#', and is `s` itself when `s` holds
   * no marker.
   */
  function RemoveMarkers(s: string): (r: string)
    ensures !HasMarker(r)
    ensures !HasMarker(s) ==> r == s
    ensures s != [] && !StartsWithMarker(s) ==> r != [] && r[0] == s[0]
    decreases |s|
  {
    if |s| < 2 then s
    else if StartsWithMarker(s) then
      assert HasMarker(s) by { assert s[0] == '#' && s[1] == '#'; }
      RemoveMarkers(s[2..])
    else
      var rest := RemoveMarkers(s[1..]);
      NoMarkerCons(s[0], rest);
      NoMarkerTail(s);
      [s[0]] + rest
  }

  /**
   * `replace('##', '')` removes the leftmost occurrence first and resumes
   * after it: when `a` holds no "##" and cannot form one with the next '#',
   * the prefix `a` is kept whole, that "##" goes, and the rest is processed
   * alone. With `!HasMarker(s) ==> RemoveMarkers(s) == s` this fixes the
   * result on every input, so any '#' outside an occurrence is kept.
   */
  lemma {:induction false} RemoveMarkersFirst(a: string, b: string)
    requires !HasMarker(a) && (a == [] || a[|a| - 1] != '#')
    ensures RemoveMarkers(a + ("##" + b)) == a + RemoveMarkers(b)
    decreases |a|, 1
  {
    if a == [] {
      var s := a + ("##" + b);
      assert s == "##" + b;
      assert s[2..] == b;
    } else {
      RemoveMarkersFirstCons(a, b);
    }
  }

  /** The step of `RemoveMarkersFirst`: the first character of `a` starts no marker, so it is kept. */
  lemma {:induction false} RemoveMarkersFirstCons(a: string, b: string)
    requires a != [] && !HasMarker(a) && a[|a| - 1] != '#'
    ensures RemoveMarkers(a + ("##" + b)) == a + RemoveMarkers(b)
    decreases |a|, 0
  {
    var s := a + ("##" + b);
    var t := a[1..] + ("##" + b);
    assert s[0] == a[0];
    assert !StartsWithMarker(s) by {
      if |a| == 1 {
        assert a[0] != '#';
      } else {
        assert s[1] == a[1];
        assert !(a[0] == '#' && a[1] == '#');
      }
    }
    assert s[1..] == t;
    assert RemoveMarkers(s) == [a[0]] + RemoveMarkers(t);
    NoMarkerTail(a);
    RemoveMarkersFirst(a[1..], b);
    assert RemoveMarkers(t) == a[1..] + RemoveMarkers(b);
    assert [a[0]] + (a[1..] + RemoveMarkers(b)) == ([a[0]] + a[1..]) + RemoveMarkers(b);
    assert [a[0]] + a[1..] == a;
  }

  /**
   * `replace('##', '')` deletes nothing but '#' characters, two at a time:
   * every other character survives, in order.
   */
  lemma {:induction false} RemoveMarkersDeletesPairs(s: string)
    ensures Unhashed(RemoveMarkers(s)) == Unhashed(s)
    ensures |RemoveMarkers(s)| <= |s| && (|s| - |RemoveMarkers(s)|) % 2 == 0
    decreases |s|, 1
  {
    if |s| >= 2 {
      if StartsWithMarker(s) {
        MarkerPairDeleted(s);
      } else {
        FirstCharacterKept(s);
      }
    }
  }

  /** A leading "##" goes, and neither '#' counted in `Unhashed`. */
  lemma {:induction false} MarkerPairDeleted(s: string)
    requires StartsWithMarker(s)
    ensures Unhashed(RemoveMarkers(s)) == Unhashed(s)
    ensures |RemoveMarkers(s)| <= |s| && (|s| - |RemoveMarkers(s)|) % 2 == 0
    decreases |s|, 0
  {
    assert RemoveMarkers(s) == RemoveMarkers(s[2..]);
    RemoveMarkersDeletesPairs(s[2..]);
    assert s[1..][1..] == s[2..];
    assert Unhashed(s[1..]) == Unhashed(s[2..]);
  }

  /** A leading character that does not start "##" is kept. */
  lemma {:induction false} FirstCharacterKept(s: string)
    requires |s| >= 2 && !StartsWithMarker(s)
    ensures Unhashed(RemoveMarkers(s)) == Unhashed(s)
    ensures |RemoveMarkers(s)| <= |s| && (|s| - |RemoveMarkers(s)|) % 2 == 0
    decreases |s|, 0
  {
    var rest := RemoveMarkers(s[1..]);
    RemoveMarkersDeletesPairs(s[1..]);
    assert RemoveMarkers(s) == [s[0]] + rest;
    UnhashedCons(s[0], rest);
    assert [s[0]] + s[1..] == s;
    UnhashedCons(s[0], s[1..]);
  }

  /** `Unhashed` keeps a leading character exactly when it is not '#'. */
  lemma UnhashedCons(c: char, r: string)
    ensures Unhashed([c] + r) == (if c == '#' then "" else [c]) + Unhashed(r)
  {
    assert ([c] + r)[1..] == r;
  }

  /** A character in front of a marker-free string forms no marker unless both are '#'. */
  lemma NoMarkerCons(c: char, rest: string)
    requires !HasMarker(rest)
    requires rest == [] || c != '#' || rest[0] != '#'
    ensures !HasMarker([c] + rest)
  {
    var r := [c] + rest;
    forall i | 0 <= i < |r| - 1 ensures !(r[i] == '#' && r[i + 1] == '#') {
      if i > 0 {
        assert r[i] == rest[i - 1] && r[i + 1] == rest[i];
      }
    }
  }

  /** Dropping the first character creates no marker. */
  lemma NoMarkerTail(s: string)
    requires s != []
    ensures !HasMarker(s) ==> !HasMarker(s[1..])
  {
    if HasMarker(s[1..]) {
      var i :| 0 <= i < |s[1..]| - 1 && s[1..][i] == '#' && s[1..][i + 1] == '#';
      assert s[i + 1] == '#' && s[i + 2] == '#';
    }
  }

  // ---------------------------------------------------------------------------
  // strip()
  // ---------------------------------------------------------------------------

  /** A whitespace character in front of whitespace. */
  lemma AllWhitespaceCons(c: char, t: string)
    requires IsWhitespace(c) && AllWhitespace(t)
    ensures AllWhitespace([c] + t)
  {
    assert forall i :: 0 < i <= |t| ==> ([c] + t)[i] == t[i - 1];
  }

  /** A whitespace character after whitespace. */
  lemma AllWhitespaceSnoc(t: string, c: char)
    requires IsWhitespace(c) && AllWhitespace(t)
    ensures AllWhitespace(t + [c])
  {
    assert forall i :: 0 <= i < |t| ==> (t + [c])[i] == t[i];
  }

  /** `s.lstrip()`: the suffix of `s` left after dropping its leading whitespace. */
  function TrimStart(s: string): (r: string)
    ensures |r| <= |s| && r == s[|s| - |r|..]
    ensures AllWhitespace(s[..|s| - |r|])
    ensures r == [] || !IsWhitespace(r[0])
  {
    if s != [] && IsWhitespace(s[0]) then
      var r := TrimStart(s[1..]);
      assert s[..|s| - |r|] == [s[0]] + s[1..][..|s| - 1 - |r|];
      AllWhitespaceCons(s[0], s[1..][..|s| - 1 - |r|]);
      r
    else s
  }

  /** `s.rstrip()`: the prefix of `s` left after dropping its trailing whitespace. */
  function TrimEnd(s: string): (r: string)
    ensures |r| <= |s| && r == s[..|r|]
    ensures AllWhitespace(s[|r|..])
    ensures r == [] || !IsWhitespace(r[|r| - 1])
  {
    if s != [] && IsWhitespace(s[|s| - 1]) then
      var r := TrimEnd(s[..|s| - 1]);
      assert s[|r|..] == s[..|s| - 1][|r|..] + [s[|s| - 1]];
      AllWhitespaceSnoc(s[..|s| - 1][|r|..], s[|s| - 1]);
      r
    else s
  }

  /** `s.strip()`: the slice of `s` between its leading and its trailing whitespace. */
  function Strip(s: string): (r: string)
    ensures r == [] || (!IsWhitespace(r[0]) && !IsWhitespace(r[|r| - 1]))
  {
    var t := TrimStart(s);
    var r := TrimEnd(t);
    assert r != [] ==> r[0] == t[0];
    r
  }

  // ---------------------------------------------------------------------------
  // split(), and the reference definitions JoinSpace and Collapse
  // ---------------------------------------------------------------------------

  /** The length of the longest prefix of `s` without whitespace. */
  function WordLength(s: string): (n: nat)
    ensures n <= |s| && NoWhitespace(s[..n])
    ensures n == |s| || IsWhitespace(s[n])
    ensures s != [] && !IsWhitespace(s[0]) ==> n > 0
  {
    if s == [] || IsWhitespace(s[0]) then 0
    else
      var n := 1 + WordLength(s[1..]);
      assert s[..n] == [s[0]] + s[1..][..n - 1];
      n
  }

  /** `s.split()`: the maximal runs of non-whitespace characters of `s`, in order. */
  function Split(s: string): (ws: seq<string>)
    ensures forall k :: 0 <= k < |ws| ==> IsWord(ws[k])
    ensures ws == [] <==> AllWhitespace(s)
    decreases |s|
  {
    if s == [] then []
    else if IsWhitespace(s[0]) then
      var ws := Split(s[1..]);
      assert AllWhitespace(s) <==> AllWhitespace(s[1..]) by {
        assert forall i :: 0 <= i < |s[1..]| ==> s[1..][i] == s[i + 1];
      }
      ws
    else
      var n := WordLength(s);
      [s[..n]] + Split(s[n..])
  }

  /** The words joined by single spaces, as `' '.join(ws)` would give them. */
  function JoinSpace(ws: seq<string>): string {
    if ws == [] then ""
    else if |ws| == 1 then ws[0]
    else ws[0] + " " + JoinSpace(ws[1..])
  }

  /** `s` with every maximal run of whitespace replaced by one space. */
  function Collapse(s: string): (r: string)
    decreases |s|
  {
    if s == [] then ""
    else if IsWhitespace(s[0]) then
      var t := TrimStart(s);
      assert |t| < |s|;
      " " + Collapse(t)
    else [s[0]] + Collapse(s[1..])
  }

  // ---------------------------------------------------------------------------
  // What split() promises
  // ---------------------------------------------------------------------------

  /** Text after the end of a word does not change where that word ends. */
  lemma {:induction false} WordLengthAppend(t: string, w: string)
    requires w == [] || IsWhitespace(w[0])
    ensures WordLength(t + w) == WordLength(t)
  {
    if t == [] {
      assert t + w == w;
    } else if !IsWhitespace(t[0]) {
      assert (t + w)[1..] == t[1..] + w;
      WordLengthAppend(t[1..], w);
    }
  }

  /** Trailing whitespace adds no word. */
  lemma {:induction false} SplitAppendWhitespace(t: string, w: string)
    requires AllWhitespace(w)
    ensures Split(t + w) == Split(t)
    decreases |t|
  {
    if t == [] {
      assert t + w == w;
    } else if IsWhitespace(t[0]) {
      assert (t + w)[1..] == t[1..] + w;
      SplitAppendWhitespace(t[1..], w);
    } else {
      WordLengthAppend(t, w);
      var n := WordLength(t);
      assert (t + w)[..n] == t[..n];
      assert (t + w)[n..] == t[n..] + w;
      SplitAppendWhitespace(t[n..], w);
    }
  }

  /** Once `t` has a word boundary, text after `t` does not move where its first word ends. */
  lemma {:induction false} WordLengthExtend(t: string, w: string)
    requires WordLength(t) < |t|
    ensures WordLength(t + w) == WordLength(t)
  {
    assert (t + w)[0] == t[0];
    if !IsWhitespace(t[0]) {
      assert (t + w)[1..] == t[1..] + w;
      WordLengthExtend(t[1..], w);
    }
  }

  /** A word splits into itself. */
  lemma SplitWord(v: string)
    requires IsWord(v)
    ensures Split(v) == [v]
  {
    var n := WordLength(v);
    assert n == |v|;
    assert v[..n] == v;
    assert v[n..] == [];
  }

  /** A space between two texts separates their words: `(x + ' ' + y).split() == x.split() + y.split()`. */
  lemma {:induction false} SplitSpaceAppend(x: string, y: string)
    ensures Split(x + (" " + y)) == Split(x) + Split(y)
    decreases |x|, 1
  {
    var s := x + (" " + y);
    if x == [] {
      assert s == " " + y;
      assert s[1..] == y;
    } else if IsWhitespace(x[0]) {
      assert s[0] == x[0];
      assert s[1..] == x[1..] + (" " + y);
      SplitSpaceAppend(x[1..], y);
    } else {
      SplitSpaceAppendWord(x, y);
    }
  }

  /** `SplitSpaceAppend` when `x` starts with a word: that word stays in front. */
  lemma {:induction false} SplitSpaceAppendWord(x: string, y: string)
    requires x != [] && !IsWhitespace(x[0])
    ensures Split(x + (" " + y)) == Split(x) + Split(y)
    decreases |x|, 0
  {
    var s := x + (" " + y);
    assert s[0] == x[0];
    var n := WordLength(x);
    if n < |x| {
      WordLengthExtend(x, " " + y);
      assert s[..n] == x[..n];
      assert s[n..] == x[n..] + (" " + y);
      SplitSpaceAppend(x[n..], y);
    } else {
      WordLengthAppend(x, " " + y);
      assert s[..n] == x[..n];
      assert s[n..] == " " + y;
      assert s[n..][1..] == y;
      assert x[n..] == [];
    }
  }

  /**
   * A word glued onto the end of `x`, when `x` ends in a visible character,
   * extends the last word of `x` and adds no word.
   */
  lemma {:induction false} SplitGlue(x: string, y: string)
    requires x != [] && !IsWhitespace(x[|x| - 1]) && IsWord(y)
    ensures Split(x) != []
    ensures Split(x + y) == Split(x)[..|Split(x)| - 1] + [Split(x)[|Split(x)| - 1] + y]
    decreases |x|, 1
  {
    if IsWhitespace(x[0]) {
      SplitGlueAfterSpace(x, y);
    } else if WordLength(x) < |x| {
      SplitGlueAfterWord(x, y);
    } else {
      assert x[..|x|] == x;
      SplitWord(x);
      SplitTwoWords(x, y);
    }
  }

  /** `SplitGlue` when `x` starts with whitespace: that character adds nothing. */
  lemma {:induction false} SplitGlueAfterSpace(x: string, y: string)
    requires x != [] && !IsWhitespace(x[|x| - 1]) && IsWord(y) && IsWhitespace(x[0])
    ensures Split(x) != []
    ensures Split(x + y) == Split(x)[..|Split(x)| - 1] + [Split(x)[|Split(x)| - 1] + y]
    decreases |x|, 0
  {
    var s := x + y;
    assert s[0] == x[0];
    assert s[1..] == x[1..] + y;
    SplitGlue(x[1..], y);
  }

  /** `SplitGlue` when `x` starts with a word that ends before `x` does: that word is kept in front. */
  lemma {:induction false} SplitGlueAfterWord(x: string, y: string)
    requires x != [] && !IsWhitespace(x[|x| - 1]) && IsWord(y)
    requires !IsWhitespace(x[0]) && WordLength(x) < |x|
    ensures Split(x) != []
    ensures Split(x + y) == Split(x)[..|Split(x)| - 1] + [Split(x)[|Split(x)| - 1] + y]
    decreases |x|, 0
  {
    var s := x + y;
    assert s[0] == x[0];
    var n := WordLength(x);
    WordLengthExtend(x, y);
    assert s[..n] == x[..n];
    assert s[n..] == x[n..] + y;
    var rest := x[n..];
    assert rest[|rest| - 1] == x[|x| - 1];
    SplitGlue(rest, y);
    var w := Split(rest);
    assert Split(x) == [x[..n]] + w;
    assert Split(x + y) == [x[..n]] + Split(rest + y);
    LastReplaced(x[..n], w, y);
  }

  /** Extending the last element of `[h] + w` is extending the last element of `w` behind `h`. */
  lemma LastReplaced(h: string, w: seq<string>, y: string)
    requires w != []
    ensures var v := [h] + w;
      v[..|v| - 1] + [v[|v| - 1] + y] == [h] + (w[..|w| - 1] + [w[|w| - 1] + y])
  {
    var v := [h] + w;
    assert v[..|v| - 1] == [h] + w[..|w| - 1];
  }

  /** Two words written together form one word. */
  lemma SplitTwoWords(x: string, y: string)
    requires IsWord(x) && IsWord(y)
    ensures Split(x + y) == [x + y]
  {
    assert NoWhitespace(x + y) by {
      forall i | 0 <= i < |x + y|
        ensures !IsWhitespace((x + y)[i])
      {
        if i < |x| {
          assert (x + y)[i] == x[i];
        } else {
          assert (x + y)[i] == y[i - |x|];
        }
      }
    }
    SplitWord(x + y);
  }

  /** Leading whitespace adds no word. */
  lemma {:induction false} SplitTrimStart(s: string)
    ensures Split(TrimStart(s)) == Split(s)
  {
    if s != [] && IsWhitespace(s[0]) {
      SplitTrimStart(s[1..]);
    }
  }

  /** Trailing whitespace adds no word, so `rstrip()` keeps the words. */
  lemma SplitTrimEnd(t: string)
    ensures Split(TrimEnd(t)) == Split(t)
  {
    var r := TrimEnd(t);
    assert t == r + t[|r|..];
    SplitAppendWhitespace(r, t[|r|..]);
  }

  /** `s.strip().split() == s.split()`: the strip before the split is redundant. */
  lemma SplitStrip(s: string)
    ensures Split(Strip(s)) == Split(s)
  {
    SplitTrimStart(s);
    SplitTrimEnd(TrimStart(s));
  }

  /** A prefix without whitespace passes through `Collapse` unchanged. */
  lemma {:induction false} CollapseWordPrefix(a: string, b: string)
    requires NoWhitespace(a)
    ensures Collapse(a + b) == a + Collapse(b)
  {
    if a == [] {
      assert a + b == b;
    } else {
      assert (a + b)[0] == a[0];
      assert (a + b)[1..] == a[1..] + b;
      CollapseWordPrefix(a[1..], b);
    }
  }

  /** `Collapse` keeps the first word of `t` and continues after it. */
  lemma CollapseFirstWord(t: string)
    ensures Collapse(t) == t[..WordLength(t)] + Collapse(t[WordLength(t)..])
  {
    var n := WordLength(t);
    assert t == t[..n] + t[n..];
    CollapseWordPrefix(t[..n], t[n..]);
  }

  /** Only a string made of whitespace loses everything to `lstrip()`. */
  lemma {:induction false} TrimStartEmpty(s: string)
    ensures TrimStart(s) == [] <==> AllWhitespace(s)
  {
    if s != [] && IsWhitespace(s[0]) {
      TrimStartEmpty(s[1..]);
      assert AllWhitespace(s) <==> AllWhitespace(s[1..]) by {
        assert forall i :: 0 <= i < |s[1..]| ==> s[1..][i] == s[i + 1];
      }
    }
  }

  /** What follows the first word of a string without trailing whitespace, once its leading whitespace is dropped. */
  lemma AfterFirstWord(t: string)
    requires t != [] && !IsWhitespace(t[|t| - 1])
    requires WordLength(t) < |t|
    ensures var r := TrimStart(t[WordLength(t)..]);
      r != [] && !IsWhitespace(r[0]) && !IsWhitespace(r[|r| - 1]) && |r| < |t|
  {
    var rest := t[WordLength(t)..];
    assert rest[|rest| - 1] == t[|t| - 1];
    TrimStartEmpty(rest);
    var r := TrimStart(rest);
    assert r[|r| - 1] == rest[|rest| - 1];
  }

  /** Joining a word in front of a non-empty list puts one space between. */
  lemma JoinCons(w: string, ws: seq<string>)
    requires ws != []
    ensures JoinSpace([w] + ws) == w + (" " + JoinSpace(ws))
  {
    assert ([w] + ws)[1..] == ws;
    assert w + " " + JoinSpace(ws) == w + (" " + JoinSpace(ws));
  }

  /** The words of a string that starts with a word and goes on after it. */
  lemma SplitAfterFirstWord(t: string)
    requires t != [] && !IsWhitespace(t[0]) && WordLength(t) < |t|
    ensures Split(t) == [t[..WordLength(t)]] + Split(TrimStart(t[WordLength(t)..]))
  {
    SplitTrimStart(t[WordLength(t)..]);
  }

  /** The collapsed form of a string that starts with a word and goes on after it. */
  lemma CollapseAfterFirstWord(t: string)
    requires t != [] && !IsWhitespace(t[0]) && WordLength(t) < |t|
    ensures Collapse(t) == t[..WordLength(t)] + (" " + Collapse(TrimStart(t[WordLength(t)..])))
  {
    CollapseFirstWord(t);
  }

  /** One step of `JoinSplitTrimmed`: the first word, then a shorter trimmed remainder. */
  lemma FirstWordStep(t: string)
    requires t != [] && !IsWhitespace(t[0]) && !IsWhitespace(t[|t| - 1]) && WordLength(t) < |t|
    ensures var w, r := t[..WordLength(t)], TrimStart(t[WordLength(t)..]);
      && r != [] && !IsWhitespace(r[0]) && !IsWhitespace(r[|r| - 1]) && |r| < |t|
      && Split(t) == [w] + Split(r) && Split(r) != []
      && Collapse(t) == w + (" " + Collapse(r))
  {
    AfterFirstWord(t);
    SplitAfterFirstWord(t);
    CollapseAfterFirstWord(t);
  }

  /** On a string with no leading or trailing whitespace, joining its words with single spaces collapses its whitespace runs. */
  lemma {:induction false} JoinSplitTrimmed(t: string)
    requires t == [] || (!IsWhitespace(t[0]) && !IsWhitespace(t[|t| - 1]))
    ensures JoinSpace(Split(t)) == Collapse(t)
    decreases |t|, 1
  {
    if t != [] {
      if WordLength(t) == |t| {
        JoinSplitOneWord(t);
      } else {
        JoinSplitSeveralWords(t);
      }
    }
  }

  /** The inductive case of `JoinSplitTrimmed`: the first word, one space, then the trimmed rest. */
  lemma {:induction false} JoinSplitSeveralWords(t: string)
    requires t != [] && !IsWhitespace(t[0]) && !IsWhitespace(t[|t| - 1]) && WordLength(t) < |t|
    ensures JoinSpace(Split(t)) == Collapse(t)
    decreases |t|, 0
  {
    var n := WordLength(t);
    var w, r := t[..n], TrimStart(t[n..]);
    FirstWordStep(t);
    JoinSplitTrimmed(r);
    JoinCons(w, Split(r));
  }

  /** A string that is one word splits into itself, and `Collapse` leaves it alone. */
  lemma JoinSplitOneWord(t: string)
    requires t != [] && WordLength(t) == |t|
    ensures JoinSpace(Split(t)) == Collapse(t) == t
  {
    assert t[..|t|] == t;
    CollapseFirstWord(t);
    assert t[|t|..] == [];
    assert Split(t) == [t] + Split([]);
  }

  /** `' '.join(s.strip().split())` is the stripped string with each whitespace run collapsed to one space. */
  lemma JoinSplit(s: string)
    ensures JoinSpace(Split(Strip(s))) == Collapse(Strip(s))
    ensures JoinSpace(Split(s)) == Collapse(Strip(s))
  {
    var t := Strip(s);
    assert t == [] || (!IsWhitespace(t[0]) && !IsWhitespace(t[|t| - 1]));
    JoinSplitTrimmed(t);
    assert JoinSpace(Split(t)) == Collapse(t);
    SplitStrip(s);
    assert Split(t) == Split(s);
  }

  /** Splitting words joined by single spaces gives the words back. */
  lemma {:induction false} SplitJoin(ws: seq<string>)
    requires forall k :: 0 <= k < |ws| ==> IsWord(ws[k])
    ensures Split(JoinSpace(ws)) == ws
  {
    if |ws| == 1 {
      SplitWord(ws[0]);
    } else if |ws| > 1 {
      var w, rest := ws[0], ws[1..];
      assert ws == [w] + rest;
      JoinCons(w, rest);
      SplitSpaceAppend(w, JoinSpace(rest));
      SplitWord(w);
      SplitJoin(rest);
    }
  }

  // ---------------------------------------------------------------------------
  // lower()
  // ---------------------------------------------------------------------------

  /** `w.lower()`, with lowercasing abstracted as a map on single characters. */
  function Lower(w: string, lower: char -> char): (r: string)
    ensures |r| == |w|
    ensures forall i :: 0 <= i < |w| ==> r[i] == lower(w[i])
  {
    seq(|w|, i requires 0 <= i < |w| => lower(w[i]))
  }
}
