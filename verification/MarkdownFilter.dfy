/** The markdown filter: strips markup from text that arrives in pieces, so that speech synthesis reads
    plain text.  Code blocks and link targets vanish, link texts stay. */
module MarkdownFilter {

  datatype Mode = Normal | InCodeBlock | InLinkUrl

  /** What is carried from one piece of text to the next: the mode, the length of the run of backticks
      just read, and whether a closing bracket was the last thing seen. */
  datatype State = State(mode: Mode, ticks: nat, seenClose: bool)

  const START := State(Normal, 0, false)

  predicate Stripped(c: char) {
    c in {'*', '_', '~', '#', '>', '[', '\\'}
  }

  /** A run of backticks has ended: three or more open or close a code block. */
  function Settled(s: State): State {
    s.(ticks := 0,
       mode := if s.ticks < 3 then s.mode else if s.mode == InCodeBlock then Normal else InCodeBlock)
  }

  /** One character that is not a backtick, with no run pending: the next state, and whether it stays. */
  function Plain(s: State, c: char): (State, bool) {
    match s.mode
    case InCodeBlock => (s, false)
    case InLinkUrl => (if c == ')' then s.(mode := Normal) else s, false)
    case Normal =>
      if c == '(' && s.seenClose then (s.(mode := InLinkUrl, seenClose := false), false)
      else if Stripped(c) then (s.(seenClose := false), false)
      else if c == ']' then (s.(seenClose := true), false)
      else (s.(seenClose := false), true)
  }

  function Feed(s: State, c: char): (State, bool) {
    if c == '`' then (s.(ticks := s.ticks + 1, seenClose := false), false) else Plain(Settled(s), c)
  }

  function After(s: State, text: string): State
    decreases |text|
  {
    if text == [] then s else After(Feed(s, text[0]).0, text[1..])
  }

  function Output(s: State, text: string): string
    decreases |text|
  {
    if text == [] then []
    else (if Feed(s, text[0]).1 then [text[0]] else []) + Output(Feed(s, text[0]).0, text[1..])
  }

  /** At position i, in state s, with `out` written, what is left to do completes the whole. */
  ghost predicate Reached(start: State, text: string, i: nat, s: State, out: string) {
    && i <= |text|
    && out + Output(s, text[i..]) == Output(start, text)
    && After(s, text[i..]) == After(start, text)
  }

  lemma Begin(start: State, text: string)
    ensures Reached(start, text, 0, start, [])
  {
    assert text[0..] == text && [] + Output(start, text) == Output(start, text);
  }

  /** Going on by one character. */
  lemma Move(start: State, text: string, i: nat, s: State, out: string)
    requires Reached(start, text, i, s, out) && i < |text|
    ensures Reached(start, text, i + 1, Feed(s, text[i]).0, if Feed(s, text[i]).1 then out + [text[i]] else out)
  {
    assert text[i..][0] == text[i] && text[i..][1..] == text[i + 1..];
  }

  /** Settling a run first makes no difference. */
  lemma Settle(start: State, text: string, i: nat, s: State, out: string)
    requires Reached(start, text, i, s, out) && i < |text| && text[i] != '`'
    ensures Reached(start, text, i, Settled(s), out)
  {
    assert Feed(s, text[i]) == Feed(Settled(s), text[i]);
    assert text[i..][0] == text[i];
  }

  lemma Done(start: State, text: string, s: State, out: string)
    requires Reached(start, text, |text|, s, out)
    ensures out == Output(start, text) && s == After(start, text)
  {
  }

  // ---------------------------------------------------------------------------------------------
  // The filter
  // ---------------------------------------------------------------------------------------------

  class Filter {
    var state: State

    constructor ()
      ensures state == START
    {
      state := START;
    }

    /** An interrupt starts afresh. */
    method Interrupt()
      modifies this
      ensures state == START
    {
      state := START;
    }

    /** Filter one piece of text.  The loop looks twice at the character that ends a run of backticks:
        once to settle the run, without moving on. */
    method Apply(input: string) returns (out: string)
      modifies this
      ensures out == Output(old(state), input)
      ensures state == After(old(state), input)
    {
      out := [];
      var i := 0;
      hide Reached;
      Begin(state, input);
      while i < |input|
        invariant i <= |input| && Reached(old(state), input, i, state, out)
        decreases |input| - i, state.ticks
      {
        var r := input[i];
        Move(old(state), input, i, state, out);
        if r == '`' {
          state := state.(ticks := state.ticks + 1, seenClose := false);
          i := i + 1;
          continue;
        }
        if state.ticks > 0 {
          Settle(old(state), input, i, state, out);
          var count := state.ticks;
          state := state.(ticks := 0);
          if count >= 3 {
            if state.mode == InCodeBlock {
              state := state.(mode := Normal);
            } else {
              state := state.(mode := InCodeBlock);
            }
          }
          continue;
        }
        if state.mode == InCodeBlock {
          i := i + 1;
          continue;
        }
        if state.mode == InLinkUrl {
          if r == ')' {
            state := state.(mode := Normal);
          }
          i := i + 1;
          continue;
        }
        if r == '(' && state.seenClose {
          state := state.(mode := InLinkUrl, seenClose := false);
          i := i + 1;
          continue;
        }
        state := state.(seenClose := false);
        if Stripped(r) {
          i := i + 1;
          continue;
        }
        if r == ']' {
          state := state.(seenClose := true);
          i := i + 1;
          continue;
        }
        out := out + [r];
        i := i + 1;
      }
      Done(old(state), input, state, out);
    }
  }

  // ---------------------------------------------------------------------------------------------
  // Pieces do not matter
  // ---------------------------------------------------------------------------------------------

  /** Filtering a text in two pieces, the state carried over, is filtering it whole. */
  lemma {:induction false} ChunkInvariant(s: State, a: string, b: string)
    ensures Output(s, a + b) == Output(s, a) + Output(After(s, a), b)
    ensures After(s, a + b) == After(After(s, a), b)
    decreases |a|
  {
    if a == [] {
      assert a + b == b;
    } else {
      ChunkInvariant(Feed(s, a[0]).0, a[1..], b);
      assert (a + b)[0] == a[0] && (a + b)[1..] == a[1..] + b;
    }
  }

  // ---------------------------------------------------------------------------------------------
  // What comes out
  // ---------------------------------------------------------------------------------------------

  const MARKUP := {'`', '*', '_', '~', '#', '>', '[', ']', '\\'}

  /** Free of markup. */
  predicate Clean(text: string) {
    forall i :: 0 <= i < |text| ==> text[i] !in MARKUP
  }

  /** The output is the input at increasing positions, and no markup is among it. */
  lemma {:induction false} SubsequenceOfPlain(s: State, text: string) returns (at: seq<nat>)
    ensures |at| == |Output(s, text)| && Clean(Output(s, text))
    ensures forall i :: 0 <= i < |at| ==> at[i] < |text| && text[at[i]] == Output(s, text)[i]
    ensures forall i, j :: 0 <= i < j < |at| ==> at[i] < at[j]
    decreases |text|
  {
    if text == [] {
      at := [];
    } else {
      var rest := SubsequenceOfPlain(Feed(s, text[0]).0, text[1..]);
      var moved := seq(|rest|, i requires 0 <= i < |rest| => rest[i] + 1);
      at := (if Feed(s, text[0]).1 then [0] else []) + moved;
    }
  }

  // ---------------------------------------------------------------------------------------------
  // Code blocks
  // ---------------------------------------------------------------------------------------------

  /** The number of runs of three or more backticks that some other character has ended. */
  function Fences(text: string): nat {
    if text == [] then 0
    else
      var n := |text| - 1;
      Fences(text[..n]) +
      if n >= 3 && text[n] != '`' && text[n - 1] == text[n - 2] == text[n - 3] == '`' then 1 else 0
  }

  function TrailingTicks(text: string): (n: nat)
    ensures n <= |text|
    ensures forall i :: |text| - n <= i < |text| ==> text[i] == '`'
    ensures n < |text| ==> text[|text| - n - 1] != '`'
  {
    if text == [] || text[|text| - 1] != '`' then 0 else 1 + TrailingTicks(text[..|text| - 1])
  }

  lemma AfterOneMore(s: State, text: string, c: char)
    ensures After(s, text + [c]) == Feed(After(s, text), c).0
  {
    ChunkInvariant(s, text, [c]);
    assert [c][1..] == [];
  }

  /** The filter is inside a code block exactly when an odd number of fences has gone by. */
  lemma {:induction false} InCodeBlockIsParity(text: string)
    ensures After(START, text).ticks == TrailingTicks(text)
    ensures After(START, text).mode == InCodeBlock <==> Fences(text) % 2 == 1
  {
    if text != [] {
      var n := |text| - 1;
      var init, c := text[..n], text[n];
      InCodeBlockIsParity(init);
      AfterOneMore(START, init, c);
      assert text == init + [c];
      FenceEnds(init);
      hide After, TrailingTicks;
      OneMoreTick(init, c);
    }
  }

  /** A run is long exactly when the last three characters are backticks. */
  lemma FenceEnds(text: string)
    ensures var n := |text|;
      TrailingTicks(text) >= 3 <==> n >= 3 && text[n - 1] == text[n - 2] == text[n - 3] == '`'
  {
    var n, k := |text|, TrailingTicks(text);
    if k >= 3 {
      assert text[n - 1] == text[n - 2] == text[n - 3] == '`';
    } else if k < n {
      assert text[n - k - 1] != '`';
    }
  }

  lemma OneMoreTick(text: string, c: char)
    ensures TrailingTicks(text + [c]) == if c == '`' then TrailingTicks(text) + 1 else 0
  {
    assert (text + [c])[..|text|] == text;
  }

  // ---------------------------------------------------------------------------------------------
  // Link targets
  // ---------------------------------------------------------------------------------------------

  predicate EndsInBracket(text: string) {
    text != [] && text[|text| - 1] == ']'
  }

  /** The mark left by a closing bracket lasts for exactly one character. */
  lemma {:induction false} SeenCloseIsLast(text: string)
    ensures After(START, text).seenClose <==> After(START, text).mode == Normal && EndsInBracket(text)
  {
    if text != [] {
      var n := |text| - 1;
      SeenCloseIsLast(text[..n]);
      InCodeBlockIsParity(text[..n]);
      AfterOneMore(START, text[..n], text[n]);
      assert text == text[..n] + [text[n]];
      hide After;
    }
  }

  /** A link target begins exactly at a parenthesis right after a closing bracket in plain text, and
      ends exactly at the next closing parenthesis, unless a fence has begun. */
  lemma LinkTargets(text: string, c: char)
    requires c != '`'
    ensures var before, after := Settled(After(START, text)).mode, After(START, text + [c]).mode;
      && (before == Normal ==> (after == InLinkUrl <==> c == '(' && EndsInBracket(text)))
      && (before == InLinkUrl ==> (after == InLinkUrl <==> c != ')'))
      && (before == InCodeBlock ==> after == InCodeBlock)
  {
    SeenCloseIsLast(text);
    AfterOneMore(START, text, c);
    InCodeBlockIsParity(text);
    hide After;
  }

  /** A character stays exactly when it is no markup, does not open a link target, and stands neither in
      a code block nor in a link target. */
  lemma CharacterStays(text: string, c: char)
    ensures Output(START, text + [c]) == Output(START, text) +
      if c !in MARKUP && Settled(After(START, text)).mode == Normal && !(c == '(' && EndsInBracket(text)) then [c] else []
  {
    SeenCloseIsLast(text);
    InCodeBlockIsParity(text);
    ChunkInvariant(START, text, [c]);
    Single(After(START, text), c);
    hide After, Output;
  }

  // ---------------------------------------------------------------------------------------------
  // What the markup means
  // ---------------------------------------------------------------------------------------------

  /** Text without markup passes unchanged, parentheses included unless the first follows a bracket. */
  lemma {:induction false} PlainPasses(s: State, text: string)
    requires s.mode == Normal && s.ticks < 3 && Clean(text)
    requires s.seenClose && text != [] ==> text[0] != '('
    ensures Output(s, text) == text
    ensures text != [] ==> After(s, text) == START
    decreases |text|
  {
    if text != [] {
      var next := Feed(s, text[0]).0;
      PlainPasses(next, text[1..]);
      if text[1..] == [] {
        assert After(s, text) == After(next, []) == next;
      }
    }
  }

  lemma {:induction false} UrlVanishes(url: string)
    requires ')' !in url && '`' !in url
    ensures var s := State(InLinkUrl, 0, false); Output(s, url) == [] && After(s, url) == s
  {
    if url != [] {
      UrlVanishes(url[1..]);
    }
  }

  /** A link becomes its text. */
  lemma LinkKeepsText(text: string, url: string)
    requires Clean(text) && ')' !in url && '`' !in url
    ensures var link := "[" + text + "](" + url + ")";
      Output(START, link) == text && After(START, link) == START
  {
    hide Output, After, Clean;
    var shown := "[" + text;
    LabelPasses(text);
    Target(url);
    ChunkInvariant(START, shown, "](" + url + ")");
    assert "[" + text + "](" + url + ")" == shown + ("](" + url + ")");
  }

  lemma LabelPasses(text: string)
    requires Clean(text)
    ensures Output(START, "[" + text) == text && After(START, "[" + text) == START
  {
    assert After(START, []) == START;
    hide Output, After;
    Single(START, '[');
    PlainPasses(START, text);
    ChunkInvariant(START, "[", text);
  }

  lemma Target(url: string)
    requires ')' !in url && '`' !in url
    ensures Output(START, "](" + url + ")") == [] && After(START, "](" + url + ")") == START
  {
    hide Output, After;
    var inUrl := State(InLinkUrl, 0, false);
    Single(START, ']');
    Single(START.(seenClose := true), '(');
    ChunkInvariant(START, "]", "(");
    assert "](" == "]" + "(" && After(START, "](") == inUrl;
    UrlVanishes(url);
    Single(inUrl, ')');
    ChunkInvariant(START, "](", url);
    ChunkInvariant(START, "](" + url, ")");
  }

  lemma Single(s: State, c: char)
    ensures After(s, [c]) == Feed(s, c).0
    ensures Output(s, [c]) == if Feed(s, c).1 then [c] else []
  {
    assert [c][1..] == [];
  }

  lemma {:induction false} TicksAdd(s: State, n: nat)
    ensures var run := seq(n, _ => '`');
      Output(s, run) == [] && After(s, run) == if n == 0 then s else s.(ticks := s.ticks + n, seenClose := false)
    decreases n
  {
    var run := seq(n, _ => '`');
    if n > 0 {
      TicksAdd(Feed(s, '`').0, n - 1);
      assert run[1..] == seq(n - 1, _ => '`');
    }
  }

  lemma {:induction false} CodeVanishes(s: State, code: string)
    requires (s.mode == InCodeBlock && s.ticks == 0) || (s.mode == Normal && s.ticks >= 3)
    requires '`' !in code
    ensures Output(s, code) == []
    ensures code != [] ==> After(s, code) == State(InCodeBlock, 0, s.seenClose)
    decreases |code|
  {
    if code != [] {
      CodeVanishes(Feed(s, code[0]).0, code[1..]);
    }
  }

  /** A fenced block vanishes, and plain text after it passes again. */
  lemma FencedBlockVanishes(open: nat, code: string, close: nat, rest: string)
    requires open >= 3 && close >= 3 && code != [] && '`' !in code && rest != [] && Clean(rest)
    ensures Output(START, seq(open, _ => '`') + code + seq(close, _ => '`') + rest) == rest
  {
    var fence, fence' := seq(open, _ => '`'), seq(close, _ => '`');
    TicksAdd(START, open);
    CodeVanishes(After(START, fence), code);
    var inside := State(InCodeBlock, 0, false);
    TicksAdd(inside, close);
    ChunkInvariant(START, fence, code);
    ChunkInvariant(START, fence + code, fence');
    ChunkInvariant(START, fence + code + fence', rest);
    var s := After(START, fence + code + fence');
    assert s == State(InCodeBlock, close, false);
    AfterFence(s, rest);
  }

  lemma AfterFence(s: State, rest: string)
    requires s.mode == InCodeBlock && s.ticks >= 3 && !s.seenClose && rest != [] && Clean(rest)
    ensures Output(s, rest) == rest
  {
    PlainPasses(START, rest);
    assert Settled(s) == START && Feed(s, rest[0]) == Feed(START, rest[0]);
  }
}
