/**
 * `WordSegments`: turning the token records of the classification pipeline
 * into words (`_segment`), the optional lowercasing of those words, and the
 * construction that loads the shared model cache first.
 */
module Segmenter {
  import opened Wrappers
  import opened Text
  import opened ModelCache

  /** One record of the pipeline output: the text fragment and its entity label. */
  datatype Token = Token(word: string, entity: string)

  /** The label of a token that continues the current multi-syllable word. */
  const Inside: string := "I"

  // ---------------------------------------------------------------------------
  // Reconstruction of one document
  // ---------------------------------------------------------------------------

  /** What one token adds to the accumulator. */
  function Piece(t: Token): string {
    if HasMarker(t.word) then RemoveMarkers(t.word)
    else if t.entity == Inside then "_" + t.word
    else " " + t.word
  }

  /**
   * A fragment holding "##" is added with every "##" removed and no
   * separator: no marker is left, every other character is kept in order,
   * and only '#' characters go. Any other fragment is added whole, after
   * '_' when its label is `Inside` and after ' ' otherwise.
   */
  lemma PieceContents(t: Token)
    ensures HasMarker(t.word) ==> var p := Piece(t);
      !HasMarker(p) && Unhashed(p) == Unhashed(t.word) && |p| <= |t.word|
    ensures !HasMarker(t.word) ==> var p := Piece(t);
      && |p| == |t.word| + 1
      && p[1..] == t.word
      && (p[0] == '_' <==> t.entity == Inside)
      && (p[0] == ' ' <==> t.entity != Inside)
  {
    if HasMarker(t.word) {
      RemoveMarkersDeletesPairs(t.word);
    }
  }

  /** The accumulator `tokens` after the records of `doc` were added in order. */
  function Accumulate(doc: seq<Token>): string {
    if doc == [] then "" else Accumulate(doc[..|doc| - 1]) + Piece(doc[|doc| - 1])
  }

  /** One step of the fold: the accumulator grows by the piece of the next token. */
  lemma AccumulateStep(doc: seq<Token>, t: Token)
    ensures Accumulate(doc + [t]) == Accumulate(doc) + Piece(t)
  {
    assert (doc + [t])[..|doc|] == doc;
  }

  /** The fold over a prefix one record longer. */
  lemma AccumulatePrefix(doc: seq<Token>, j: nat)
    requires j < |doc|
    ensures Accumulate(doc[..j + 1]) == Accumulate(doc[..j]) + Piece(doc[j])
  {
    assert doc[..j + 1][..j] == doc[..j];
  }

  /** The accumulator of a concatenation is the concatenation of the accumulators. */
  lemma {:induction false} AccumulateAppend(a: seq<Token>, b: seq<Token>)
    ensures Accumulate(a + b) == Accumulate(a) + Accumulate(b)
    decreases |b|
  {
    if b == [] {
      assert a + b == a;
    } else {
      var b' := b[..|b| - 1];
      var t := b[|b| - 1];
      assert a + b == (a + b') + [t];
      assert b == b' + [t];
      AccumulateStep(a + b', t);
      assert Accumulate(a + b) == Accumulate(a + b') + Piece(t);
      AccumulateAppend(a, b');
      AccumulateStep(b', t);
      assert Accumulate(b) == Accumulate(b') + Piece(t);
    }
  }

  /**
   * The words of one document, `tokens.strip().split()`: every word is
   * non-empty and free of whitespace.
   */
  function SegmentDoc(doc: seq<Token>): (ws: seq<string>)
    ensures forall k :: 0 <= k < |ws| ==> IsWord(ws[k])
  {
    Split(Strip(Accumulate(doc)))
  }

  /**
   * The words joined by single spaces are the stripped accumulator with each
   * whitespace run collapsed to one space, and the words can be read back
   * from that text.
   */
  lemma SegmentDocRoundTrip(doc: seq<Token>)
    ensures JoinSpace(SegmentDoc(doc)) == Collapse(Strip(Accumulate(doc)))
    ensures Split(JoinSpace(SegmentDoc(doc))) == SegmentDoc(doc)
  {
    JoinSplit(Accumulate(doc));
    SplitJoin(SegmentDoc(doc));
  }

  /** `f` applied to every element of `xs`, in order. */
  function Map<A, B>(f: A -> B, xs: seq<A>): (r: seq<B>)
    ensures |r| == |xs|
    ensures forall k :: 0 <= k < |xs| ==> r[k] == f(xs[k])
  {
    seq(|xs|, k requires 0 <= k < |xs| => f(xs[k]))
  }

  /** Mapping over a prefix one element longer appends the image of that element. */
  lemma MapPrefix<A, B>(f: A -> B, xs: seq<A>, i: nat)
    requires i < |xs|
    ensures Map(f, xs[..i + 1]) == Map(f, xs[..i]) + [f(xs[i])]
  {
    assert xs[..i + 1][i] == xs[i];
  }

  /**
   * `_segment`, with the pipeline call replaced by its output `results`:
   * the outer loop appends the word list of each document in turn.
   */
  method Segment(results: seq<seq<Token>>) returns (segments: seq<seq<string>>)
    ensures segments == Map(SegmentDoc, results)
  {
    segments := [];
    var i := 0;
    while i < |results|
      invariant 0 <= i <= |results|
      invariant segments == Map(SegmentDoc, results[..i])
    {
      var words := SegmentOne(results[i]);
      MapPrefix(SegmentDoc, results, i);
      segments := segments + [words];
      i := i + 1;
    }
    assert results[..i] == results;
  }

  /** One pass of the outer loop: rebuild the text, strip it and split it. */
  method SegmentOne(doc: seq<Token>) returns (words: seq<string>)
    ensures words == SegmentDoc(doc)
  {
    var tokens := Reconstruct(doc);
    words := Split(Strip(tokens));
  }

  /** The inner loop of `_segment`: the accumulator `tokens` of one document. */
  method Reconstruct(doc: seq<Token>) returns (tokens: string)
    ensures tokens == Accumulate(doc)
  {
    tokens := "";
    var j := 0;
    while j < |doc|
      invariant 0 <= j <= |doc|
      invariant tokens == Accumulate(doc[..j])
    {
      AccumulatePrefix(doc, j);
      tokens := AddPiece(tokens, doc[j]);
      j := j + 1;
    }
    assert doc[..j] == doc;
  }

  /** The body of the inner loop: the three ways a record extends `tokens`. */
  method AddPiece(tokens: string, e: Token) returns (r: string)
    ensures r == tokens + Piece(e)
  {
    var word := e.word;
    if HasMarker(word) {
      r := tokens + RemoveMarkers(word);
    } else if e.entity == Inside {
      r := tokens + ("_" + word);
    } else {
      r := tokens + (" " + word);
    }
  }

  // ---------------------------------------------------------------------------
  // Case folding
  // ---------------------------------------------------------------------------

  /**
   * `_norm_segmented`: the segments themselves when `keepCase` holds (the
   * source's `case=True`), otherwise every word lowercased.
   */
  function Normalize(segmented: seq<seq<string>>, keepCase: bool, lower: char -> char): (r: seq<seq<string>>)
    ensures keepCase ==> r == segmented
    ensures |r| == |segmented|
    ensures forall i :: 0 <= i < |r| ==> |r[i]| == |segmented[i]|
    ensures !keepCase ==> forall i, j :: 0 <= i < |r| && 0 <= j < |r[i]| ==> r[i][j] == Lower(segmented[i][j], lower)
  {
    if keepCase then segmented
    else seq(|segmented|, i requires 0 <= i < |segmented| =>
           seq(|segmented[i]|, j requires 0 <= j < |segmented[i]| => Lower(segmented[i][j], lower)))
  }

  /**
   * Lowercasing what is already lowercase changes nothing, when `lower` is
   * itself idempotent on characters.
   */
  lemma NormalizeIdempotent(segmented: seq<seq<string>>, lower: char -> char)
    requires forall c :: lower(lower(c)) == lower(c)
    ensures Normalize(Normalize(segmented, false, lower), false, lower) == Normalize(segmented, false, lower)
  {
    var once := Normalize(segmented, false, lower);
    var twice := Normalize(once, false, lower);
    forall i, j | 0 <= i < |once| && 0 <= j < |once[i]|
      ensures twice[i][j] == once[i][j]
    {
      assert |twice[i][j]| == |once[i][j]|;
      forall k | 0 <= k < |once[i][j]|
        ensures twice[i][j][k] == once[i][j][k]
      {
        assert once[i][j][k] == lower(segmented[i][j][k]);
      }
    }
    forall i | 0 <= i < |once|
      ensures twice[i] == once[i]
    {
    }
  }

  /**
   * Lowercasing keeps every word a word when `lower` maps no visible
   * character to whitespace.
   */
  lemma NormalizeKeepsWords(segmented: seq<seq<string>>, keepCase: bool, lower: char -> char)
    requires forall c :: !IsWhitespace(c) ==> !IsWhitespace(lower(c))
    requires forall i, j :: 0 <= i < |segmented| && 0 <= j < |segmented[i]| ==> IsWord(segmented[i][j])
    ensures var r := Normalize(segmented, keepCase, lower);
      forall i, j :: 0 <= i < |r| && 0 <= j < |r[i]| ==> IsWord(r[i][j])
  {
    var r := Normalize(segmented, keepCase, lower);
    forall i, j | 0 <= i < |r| && 0 <= j < |r[i]|
      ensures IsWord(r[i][j])
    {
      if !keepCase {
        var w := segmented[i][j];
        assert r[i][j] == Lower(w, lower);
        assert IsWord(w);
        forall k | 0 <= k < |w|
          ensures !IsWhitespace(Lower(w, lower)[k])
        {
          assert !IsWhitespace(w[k]);
        }
      }
    }
  }

  // ---------------------------------------------------------------------------
  // Construction
  // ---------------------------------------------------------------------------

  /** The `texts` argument: one string, or a list of strings. */
  datatype Texts = Single(text: string) | Batch(texts: seq<string>)

  /** The list `_segment` works on: a single string becomes a one-element list. */
  function AsList(texts: Texts): (r: seq<string>)
    ensures texts.Single? ==> |r| == 1 && r[0] == texts.text
    ensures texts.Batch? ==> r == texts.texts
  {
    match texts
    case Single(text) => [text]
    case Batch(texts) => texts
  }

  /** A single string is segmented as the one-element list holding it. */
  lemma SingleIsOneElementBatch(text: string)
    ensures AsList(Single(text)) == AsList(Batch([text]))
  {
  }

  /** A constructed `WordSegments` object, taken as an immutable value. */
  datatype WordSegments = WordSegments(
    lang: string,
    texts: seq<string>,
    segmented: seq<seq<string>>,
    normSegmented: seq<seq<string>>)
  {
    /**
     * `__getitem__` with an integer: Python list indexing, where a negative
     * index counts from the end and any other index is an `IndexError`.
     */
    function Get(index: int): (r: Option<seq<string>>)
      ensures r.Some? <==> -|normSegmented| <= index < |normSegmented|
      ensures 0 <= index < |normSegmented| ==> r == Some(normSegmented[index])
      ensures -|normSegmented| <= index < 0 ==> r == Some(normSegmented[|normSegmented| + index])
    {
      if 0 <= index < |normSegmented| then Some(normSegmented[index])
      else if -|normSegmented| <= index < 0 then Some(normSegmented[|normSegmented| + index])
      else None
    }
  }

  /**
   * `WordSegments(texts, lang, case=keepCase, ...)`: loads the shared cache,
   * which refuses any language but Vietnamese before anything else, then
   * runs the cached pipeline (`infer`) on the list of texts, reconstructs
   * the words of every document and lowercases them unless `keepCase`.
   */
  method Create(
    cache: Cache, texts: Texts, lang: string, keepCase: bool,
    device: Device, truncate: bool, maxLength: int, torchDtype: Dtype,
    infer: (Pipe, seq<string>) -> seq<seq<Token>>, lower: char -> char)
    returns (r: Result<WordSegments, Error>)
    requires cache.Valid()
    modifies cache
    ensures cache.Valid()
    ensures lang != SupportedLanguage ==> r == Failure(UnsupportedLanguage(lang)) && unchanged(cache)
    ensures lang == SupportedLanguage ==>
      && cache.State() == Loaded(old(cache.State()), Config(truncate, maxLength, torchDtype, device))
      && r.Success?
      && r.value.lang == lang
      && r.value.texts == AsList(texts)
      && var results := infer(cache.pipe.value, AsList(texts));
         && r.value.segmented == Map(SegmentDoc, results)
         && r.value.normSegmented == Normalize(r.value.segmented, keepCase, lower)
  {
    var loaded := cache.LoadModel(lang, device, truncate, maxLength, torchDtype);
    if loaded.Fail? {
      return Failure(loaded.error);
    }
    var list := AsList(texts);
    var results := infer(cache.pipe.value, list);
    var segmented := Segment(results);
    var normSegmented := Normalize(segmented, keepCase, lower);
    return Success(WordSegments(lang, list, segmented, normSegmented));
  }

  // ---------------------------------------------------------------------------
  // What each kind of token does to the words
  // ---------------------------------------------------------------------------

  /** The words of a document with no tokens: none. */
  lemma SegmentEmptyDoc()
    ensures SegmentDoc([]) == []
  {
    assert Accumulate([]) == "";
    assert Strip("") == "";
  }

  /** A token without "##" and not labelled `Inside` starts new words: those of its fragment. */
  lemma BeginTokenStartsWord(doc: seq<Token>, t: Token)
    requires !HasMarker(t.word) && t.entity != Inside
    ensures SegmentDoc(doc + [t]) == SegmentDoc(doc) + Split(t.word)
  {
    var a := Accumulate(doc);
    AccumulateStep(doc, t);
    assert Accumulate(doc + [t]) == a + (" " + t.word);
    SplitStrip(a + (" " + t.word));
    SplitSpaceAppend(a, t.word);
    SplitStrip(a);
  }

  /**
   * A piece that is a word, added right after a visible character, extends
   * the last word and starts none.
   */
  lemma GluedPieceExtendsLastWord(doc: seq<Token>, t: Token)
    requires var a := Accumulate(doc); a != [] && !IsWhitespace(a[|a| - 1])
    requires IsWord(Piece(t))
    ensures var ws := SegmentDoc(doc);
      ws != [] && SegmentDoc(doc + [t]) == ws[..|ws| - 1] + [ws[|ws| - 1] + Piece(t)]
  {
    var a := Accumulate(doc);
    AccumulateStep(doc, t);
    SplitGlue(a, Piece(t));
    SplitStrip(a + Piece(t));
    SplitStrip(a);
  }

  /**
   * An `Inside` token without "##" whose fragment has no whitespace joins
   * onto the last word as '_' and the fragment.
   */
  lemma InsideTokenJoins(doc: seq<Token>, t: Token)
    requires var a := Accumulate(doc); a != [] && !IsWhitespace(a[|a| - 1])
    requires !HasMarker(t.word) && t.entity == Inside && NoWhitespace(t.word)
    ensures var ws := SegmentDoc(doc);
      ws != [] && SegmentDoc(doc + [t]) == ws[..|ws| - 1] + [ws[|ws| - 1] + ("_" + t.word)]
  {
    var p := Piece(t);
    assert p == "_" + t.word;
    assert NoWhitespace(p) by {
      forall i | 0 <= i < |p|
        ensures !IsWhitespace(p[i])
      {
        if i > 0 {
          assert p[i] == t.word[i - 1];
        }
      }
    }
    GluedPieceExtendsLastWord(doc, t);
  }

  /**
   * A token holding "##", whatever its label, merges its fragment with the
   * markers removed onto the last word, with no separator.
   */
  lemma MarkerTokenMerges(doc: seq<Token>, t: Token)
    requires var a := Accumulate(doc); a != [] && !IsWhitespace(a[|a| - 1])
    requires HasMarker(t.word) && IsWord(RemoveMarkers(t.word))
    ensures var ws := SegmentDoc(doc);
      ws != [] && SegmentDoc(doc + [t]) == ws[..|ws| - 1] + [ws[|ws| - 1] + RemoveMarkers(t.word)]
  {
    GluedPieceExtendsLastWord(doc, t);
  }

  /**
   * A starting syllable followed by an `Inside` syllable make one word
   * joined by '_', as "Hà" (B) and "Nội" (I) make "Hà_Nội".
   */
  lemma BeginThenInside(b: Token, i: Token)
    requires !HasMarker(b.word) && b.entity != Inside && IsWord(b.word)
    requires !HasMarker(i.word) && i.entity == Inside && NoWhitespace(i.word)
    ensures SegmentDoc([b] + [i]) == [b.word + ("_" + i.word)]
  {
    FirstWord(b);
    InsideTokenJoins([b], i);
    var ws := SegmentDoc([b]);
    assert ws[..|ws| - 1] == [];
  }

  /**
   * A starting syllable followed by a "##" piece make one word with no
   * separator, as "xyz" (B) and "##ABC" (I) make "xyzABC".
   */
  lemma BeginThenMarker(b: Token, m: Token)
    requires !HasMarker(b.word) && b.entity != Inside && IsWord(b.word)
    requires HasMarker(m.word) && IsWord(RemoveMarkers(m.word))
    ensures SegmentDoc([b] + [m]) == [b.word + RemoveMarkers(m.word)]
  {
    FirstWord(b);
    MarkerTokenMerges([b], m);
    var ws := SegmentDoc([b]);
    assert ws[..|ws| - 1] == [];
  }

  /** The first token of a document, when it starts a word, leaves its fragment as the only word. */
  lemma FirstWord(b: Token)
    requires !HasMarker(b.word) && b.entity != Inside && IsWord(b.word)
    ensures SegmentDoc([b]) == [b.word]
    ensures var a := Accumulate([b]); a != [] && !IsWhitespace(a[|a| - 1])
  {
    SegmentEmptyDoc();
    SplitWord(b.word);
    BeginTokenStartsWord([], b);
    assert [] + [b] == [b];
    AccumulateStep([], b);
    assert Accumulate([b]) == " " + b.word;
  }
}
