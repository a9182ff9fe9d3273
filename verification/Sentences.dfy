/** The sentence splitter: text from a language model arrives in pieces and is cut into sentences to
    be spoken, as early as a sentence is worth speaking. */
module Sentences {
  import opened Cutting

  const MIN_SENTENCE_LEN: nat := 20

  /** The Unicode tables the splitter consults. */
  datatype Unicode = Unicode(isSpace: char -> bool, isLetter: char -> bool, isDigit: char -> bool)

  /** Full stops, exclamation and question marks, ideographic ones included, and line ends. */
  const STOPS := {'\U{3002}', '\U{ff01}', '\U{ff1f}', '!', '?', '\n', '\r'}

  /** Commas, semicolons and colons, full-width ones included. */
  const PAUSES := {'\U{ff0c}', ',', '\U{ff1b}', ';', '\U{ff1a}', ':'}

  predicate IsStop(c: char): (r: bool)
    ensures r <==> c in STOPS
  {
    c == '\U{3002}' || c == '\U{ff01}' || c == '\U{ff1f}' || c == '!' || c == '?' || c == '\n' || c == '\r'
  }

  predicate IsBoundary(c: char): (r: bool)
    ensures r <==> c in STOPS || c in PAUSES
  {
    || c == '\U{3002}' || c == '\U{ff01}' || c == '\U{ff1f}' || c == '!' || c == '?'
    || c == '\U{ff0c}' || c == ',' || c == '\U{ff1b}' || c == ';' || c == '\U{ff1a}' || c == ':'
    || c == '\n' || c == '\r'
  }

  function TrimLeft(u: Unicode, s: string): string {
    if s != [] && u.isSpace(s[0]) then TrimLeft(u, s[1..]) else s
  }

  function TrimRight(u: Unicode, s: string): string {
    if s != [] && u.isSpace(s[|s| - 1]) then TrimRight(u, s[..|s| - 1]) else s
  }

  function TrimSpace(u: Unicode, s: string): string {
    TrimRight(u, TrimLeft(u, s))
  }

  /** Trimming leaves the stretch between the first and the last character that is not a space: only spaces
      go, and it leaves nothing exactly when there is nothing else. */
  lemma TrimLeaves(u: Unicode, s: string) returns (i: nat, j: nat)
    ensures i <= j <= |s| && TrimSpace(u, s) == s[i..j]
    ensures forall k :: 0 <= k < i || j <= k < |s| ==> u.isSpace(s[k])
    ensures i < j ==> !u.isSpace(s[i]) && !u.isSpace(s[j - 1])
    ensures TrimSpace(u, s) == [] <==> forall k :: 0 <= k < |s| ==> u.isSpace(s[k])
  {
    i := TrimmedLeft(u, s);
    j := TrimmedRight(u, s[i..]);
    assert s[i..][..j] == s[i..i + j];
    assert forall k :: i + j <= k < |s| ==> s[k] == s[i..][k - i];
    j := i + j;
  }

  lemma {:induction false} TrimmedLeft(u: Unicode, s: string) returns (i: nat)
    ensures i <= |s| && TrimLeft(u, s) == s[i..] && (forall k :: 0 <= k < i ==> u.isSpace(s[k]))
    ensures i < |s| ==> !u.isSpace(s[i])
  {
    if s != [] && u.isSpace(s[0]) {
      i := TrimmedLeft(u, s[1..]);
      assert s[1..][i..] == s[i + 1..];
      assert forall k :: 0 < k <= i ==> s[k] == s[1..][k - 1];
      i := i + 1;
    } else {
      i := 0;
    }
  }

  lemma {:induction false} TrimmedRight(u: Unicode, s: string) returns (j: nat)
    ensures j <= |s| && TrimRight(u, s) == s[..j] && (forall k :: j <= k < |s| ==> u.isSpace(s[k]))
    ensures j > 0 ==> !u.isSpace(s[j - 1])
  {
    var n := |s|;
    if s != [] && u.isSpace(s[n - 1]) {
      j := TrimmedRight(u, s[..n - 1]);
      assert s[..n - 1][..j] == s[..j];
      assert forall k :: j <= k < n - 1 ==> s[k] == s[..n - 1][k];
    } else {
      j := n;
    }
  }

  predicate HasAlphaNum(u: Unicode, s: string) {
    exists i :: 0 <= i < |s| && (u.isLetter(s[i]) || u.isDigit(s[i]))
  }

  // ---------------------------------------------------------------------------------------------
  // Reference: the greedy segmentation of a whole text
  // ---------------------------------------------------------------------------------------------

  /** The text so far can be spoken: it ends at a boundary, says something, and the boundary is a full
      stop or enough has gathered. */
  predicate Speakable(u: Unicode, s: string) {
    && s != [] && (s[|s| - 1] in STOPS || s[|s| - 1] in PAUSES)
    && HasAlphaNum(u, TrimSpace(u, s))
    && (s[|s| - 1] in STOPS || |TrimSpace(u, s)| >= 20)
  }

  /** No beginning of s, s included, can be spoken. */
  predicate Unfinished(u: Unicode, s: string) {
    forall k :: 0 <= k <= |s| ==> !Speakable(u, s[..k])
  }

  /** A sentence: it can be spoken, and nothing shorter could. */
  predicate Sentence(u: Unicode, s: string) {
    Speakable(u, s) && Unfinished(u, s[..|s| - 1])
  }

  /** `rest` is what is left of the text once `sentences` have been cut from its front. */
  predicate Segments(u: Unicode, text: string, sentences: seq<string>, rest: string) {
    && text == Flat(sentences) + rest
    && (forall i :: 0 <= i < |sentences| ==> Sentence(u, sentences[i]))
    && Unfinished(u, rest)
  }

  /** Something speakable at the front spoils every longer candidate. */
  lemma ShorterSpoils(u: Unicode, a: string, x: string, b: string, y: string)
    requires Speakable(u, a) && a + x == b + y && |a| < |b|
    ensures !Unfinished(u, b[..|b| - 1])
  {
    assert b[..|b| - 1][..|a|] == (b + y)[..|a|] == (a + x)[..|a|] == a;
  }

  /** Two sentences at the front of the same text are the same. */
  lemma OneFirstSentence(u: Unicode, a: string, x: string, b: string, y: string)
    requires Sentence(u, a) && Sentence(u, b) && a + x == b + y
    ensures a == b && x == y
  {
    hide Speakable, Unfinished;
    if |a| < |b| {
      ShorterSpoils(u, a, x, b, y);
    } else if |b| < |a| {
      ShorterSpoils(u, b, y, a, x);
    } else {
      assert a == (a + x)[..|a|] == (b + y)[..|b|] == b;
      assert x == (a + x)[|a|..] && y == (b + y)[|b|..];
    }
  }

  lemma NotUnfinished(u: Unicode, a: string, x: string)
    requires Sentence(u, a)
    ensures !Unfinished(u, a + x)
  {
    assert (a + x)[..|a|] == a;
  }

  /** With nothing cut, the text is all rest; with something cut, it is not unfinished. */
  lemma FirstCut(u: Unicode, text: string, s: seq<string>, r: string)
    requires Segments(u, text, s, r)
    ensures s == [] ==> text == r
    ensures s != [] ==> text == s[0] + (Flat(s[1..]) + r) && !Unfinished(u, text)
  {
    if s != [] {
      assert text == s[0] + (Flat(s[1..]) + r);
      NotUnfinished(u, s[0], Flat(s[1..]) + r);
    }
  }

  /** A text has only one segmentation. */
  lemma {:induction false} OneSegmentation(u: Unicode, text: string, s: seq<string>, r: string, s': seq<string>, r': string)
    requires Segments(u, text, s, r) && Segments(u, text, s', r')
    ensures s == s' && r == r'
    decreases |s| + |s'|
  {
    hide Sentence, Unfinished;
    FirstCut(u, text, s, r);
    FirstCut(u, text, s', r');
    if s != [] && s' != [] {
      var x, y := Flat(s[1..]) + r, Flat(s'[1..]) + r';
      OneFirstSentence(u, s[0], x, s'[0], y);
      OneSegmentation(u, x, s[1..], r, s'[1..], r');
      assert s == [s[0]] + s[1..] && s' == [s'[0]] + s'[1..];
    }
  }

  /** Segmenting may stop anywhere and go on with what was left. */
  lemma SegmentsAppend(u: Unicode, a: string, s: seq<string>, r: string, b: string, s': seq<string>, r': string)
    requires Segments(u, a, s, r) && Segments(u, r + b, s', r')
    ensures Segments(u, a + b, s + s', r')
  {
    hide Sentence, Unfinished;
    FlatAppend(s, s');
    assert Flat(s) + (r + b) == a + b;
    assert Flat(s) + (Flat(s') + r') == Flat(s + s') + r';
  }

  // ---------------------------------------------------------------------------------------------
  // The splitter
  // ---------------------------------------------------------------------------------------------

  /** Whether a text has a letter or a digit. */
  method FindAlphaNum(u: Unicode, s: string) returns (found: bool)
    ensures found <==> HasAlphaNum(u, s)
  {
    for i := 0 to |s|
      invariant forall k :: 0 <= k < i ==> !u.isLetter(s[k]) && !u.isDigit(s[k])
    {
      if u.isLetter(s[i]) || u.isDigit(s[i]) {
        return true;
      }
    }
    return false;
  }

  /** Whether to split after a boundary character. */
  method ShouldSplit(u: Unicode, s: string) returns (split: bool)
    requires s != [] && IsBoundary(s[|s| - 1])
    ensures split <==> Speakable(u, s)
  {
    var trimmed := TrimSpace(u, s);
    if trimmed == "" {
      return false;
    }
    var found := FindAlphaNum(u, trimmed);
    if !found {
      return false;
    }
    if IsStop(s[|s| - 1]) {
      return true;
    }
    return |trimmed| >= MIN_SENTENCE_LEN;
  }

  class Splitter {
    const unicode: Unicode
    var fragment: string
    /** The text received and the sentences cut from it, since the beginning. */
    ghost var received: string
    ghost var cut: seq<string>

    ghost predicate Valid()
      reads this
    {
      Segments(unicode, received, cut, fragment)
    }

    constructor (unicode: Unicode)
      ensures Valid() && this.unicode == unicode && received == [] && cut == []
    {
      this.unicode := unicode;
      fragment, received, cut := [], [], [];
    }

    /** One character more; the sentence it completes, if any. */
    method Push(c: char) returns (sentences: seq<string>)
      requires Valid()
      modifies this
      ensures Valid() && received == old(received) + [c] && cut == old(cut) + sentences
    {
      hide Speakable, Segments;
      sentences := [];
      ghost var was := fragment;
      fragment := fragment + [c];
      received := received + [c];
      var split := false;
      if IsBoundary(c) {
        split := ShouldSplit(unicode, fragment);
      } else {
        NoBoundary(unicode, fragment);
      }
      if split {
        SegmentsCut(unicode, old(received), cut, was, c);
        sentences := [fragment];
        cut := cut + [fragment];
        fragment := [];
      } else {
        SegmentsGrow(unicode, old(received), cut, was, c);
      }
    }

    /** One piece of text: the sentences it completes.  All text is kept, in order, and the sentences
        are those of the greedy segmentation of everything received, however it was cut into pieces. */
    method ParseSentences(content: string) returns (sentences: seq<string>)
      requires Valid()
      modifies this
      ensures Valid() && received == old(received) + content && cut == old(cut) + sentences
    {
      hide Segments;
      sentences := [];
      for i := 0 to |content|
        invariant Valid() && received == old(received) + content[..i] && cut == old(cut) + sentences
      {
        var more := Push(content[i]);
        sentences := sentences + more;
        assert content[..i + 1] == content[..i] + [content[i]];
      }
      assert content[..|content|] == content;
    }

    /** The end of the stream: what is left goes out unless it is blank. */
    method Last() returns (final: string)
      requires Valid()
      ensures received == Flat(cut) + fragment
      ensures final == "" <==> TrimSpace(unicode, fragment) == ""
      ensures final != "" ==> final == fragment
      ensures !Speakable(unicode, fragment)
    {
      assert fragment[..|fragment|] == fragment && TrimSpace(unicode, "") == "";
      final := if TrimSpace(unicode, fragment) != "" then fragment else "";
    }
  }

  lemma NoBoundary(u: Unicode, s: string)
    requires s != [] && !IsBoundary(s[|s| - 1])
    ensures !Speakable(u, s)
  {
  }

  lemma NothingToSpeak(u: Unicode)
    ensures Unfinished(u, [])
  {
  }

  lemma SegmentsCut(u: Unicode, text: string, cut: seq<string>, rest: string, c: char)
    requires Segments(u, text, cut, rest) && Speakable(u, rest + [c])
    ensures Segments(u, text + [c], cut + [rest + [c]], [])
  {
    hide Speakable, Unfinished;
    var s := rest + [c];
    assert s[..|s| - 1] == rest;
    FlatAppend(cut, [s]);
    FlatOne(s);
    assert Flat(cut) + s == text + [c];
    NothingToSpeak(u);
  }

  lemma SegmentsGrow(u: Unicode, text: string, cut: seq<string>, rest: string, c: char)
    requires Segments(u, text, cut, rest) && !Speakable(u, rest + [c])
    ensures Segments(u, text + [c], cut, rest + [c])
  {
    hide Speakable, Unfinished, Sentence;
    assert Flat(cut) + (rest + [c]) == text + [c];
    OneMore(u, rest, c);
  }

  lemma OneMore(u: Unicode, s: string, c: char)
    requires Unfinished(u, s) && !Speakable(u, s + [c])
    ensures Unfinished(u, s + [c])
  {
    var t := s + [c];
    forall k | 0 <= k <= |t| ensures !Speakable(u, t[..k]) {
      if k == |t| {
        assert t[..k] == t;
      } else {
        assert t[..k] == s[..k];
      }
    }
  }

  /** Two splitters that have received the same text have cut the same sentences and keep the same
      fragment. */
  lemma SameTextSameSentences(a: Splitter, b: Splitter)
    requires a.Valid() && b.Valid() && a.unicode == b.unicode && a.received == b.received
    ensures a.cut == b.cut && a.fragment == b.fragment
  {
    OneSegmentation(a.unicode, a.received, a.cut, a.fragment, b.cut, b.fragment);
  }
}
