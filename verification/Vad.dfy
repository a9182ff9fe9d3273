/** The voice activity detector: bytes in chunks of any size are cut into frames, each frame gets a
    verdict, and runs of speech or silence switch between speaking and not speaking. */
module VoiceActivity {
  import opened Cutting

  datatype Verdict = Speech | Silence | Failed

  datatype Signal = UserSpeechStart | UserSpeechEnd

  // ---------------------------------------------------------------------------------------------
  // Configuration
  // ---------------------------------------------------------------------------------------------

  const DEFAULT_FRAME_BYTES: int := 512
  const FRAME_MS: int := 16
  const DEFAULT_SPEECH_MS: int := 150
  const DEFAULT_SILENCE_MS: int := 600
  const DEFAULT_THRESHOLD: real := 0.5

  datatype Config = Config(threshold: real, speechMs: int, silenceMs: int, frameBytes: int)

  /** Out-of-range settings fall back to the defaults; the others are kept. */
  function Normalized(c: Config): (r: Config)
    ensures 0.0 < r.threshold <= 1.0 && r.speechMs > 0 && r.silenceMs > 0
    ensures r.frameBytes > 0 && r.frameBytes % 2 == 0
    ensures r.threshold == if 0.0 < c.threshold <= 1.0 then c.threshold else 0.5
    ensures r.speechMs == if c.speechMs > 0 then c.speechMs else 150
    ensures r.silenceMs == if c.silenceMs > 0 then c.silenceMs else 600
    ensures r.frameBytes == if c.frameBytes > 0 && c.frameBytes % 2 == 0 then c.frameBytes else 512
  {
    Config(
      if c.threshold <= 0.0 || c.threshold > 1.0 then DEFAULT_THRESHOLD else c.threshold,
      if c.speechMs <= 0 then DEFAULT_SPEECH_MS else c.speechMs,
      if c.silenceMs <= 0 then DEFAULT_SILENCE_MS else c.silenceMs,
      if c.frameBytes <= 0 || c.frameBytes % 2 != 0 then DEFAULT_FRAME_BYTES else c.frameBytes)
  }

  /** Division that rounds toward zero. */
  function Quotient(a: int, b: int): int
    requires b > 0
  {
    if a >= 0 then a / b else -((-a) / b)
  }

  /** The least number of frames, at least one, that lasts the given time. */
  function DurationToFrames(ms: int): (frames: nat)
    ensures frames >= 1 && FRAME_MS * frames >= ms
    ensures frames > 1 ==> FRAME_MS * (frames - 1) < ms
  {
    var frames := Quotient(ms + FRAME_MS - 1, FRAME_MS);
    if frames <= 0 then 1 else frames
  }

  // ---------------------------------------------------------------------------------------------
  // Reference: hysteresis on the history of classified frames, without counters
  // ---------------------------------------------------------------------------------------------

  /** The last k frames were all speech (or all silence). */
  predicate LastAll(h: seq<bool>, k: nat, speech: bool) {
    |h| >= k && forall i :: |h| - k <= i < |h| ==> h[i] == speech
  }

  predicate Speaking(pre: nat, post: nat, h: seq<bool>) {
    if h == [] then false
    else if Speaking(pre, post, h[..|h| - 1]) then !LastAll(h, post, false) else LastAll(h, pre, true)
  }

  function Signals(pre: nat, post: nat, h: seq<bool>): seq<Signal> {
    if h == [] then []
    else
      var init := h[..|h| - 1];
      Signals(pre, post, init) +
      (if !Speaking(pre, post, init) && LastAll(h, pre, true) then [UserSpeechStart]
       else if Speaking(pre, post, init) && LastAll(h, post, false) then [UserSpeechEnd]
       else [])
  }

  /** Start and end alternate, beginning with a start, and the detector is speaking exactly between. */
  lemma {:induction false} Alternates(pre: nat, post: nat, h: seq<bool>)
    ensures var out := Signals(pre, post, h);
      && (forall i :: 0 <= i < |out| ==> out[i] == if i % 2 == 0 then UserSpeechStart else UserSpeechEnd)
      && (Speaking(pre, post, h) <==> |out| % 2 == 1)
  {
    if h != [] {
      Alternates(pre, post, h[..|h| - 1]);
    }
  }

  /** The law in full, for every history and its last frame: a start is sent exactly when the detector is
      between utterances and the last `pre` frames are all speech, an end exactly when it is in one and the
      last `post` frames are all silence, and nothing in any other case. */
  lemma LastFrameLaw(pre: nat, post: nat, h: seq<bool>)
    requires h != []
    ensures var before, after := Signals(pre, post, h[..|h| - 1]), Signals(pre, post, h);
      && (after == before + [UserSpeechStart] <==>
            |before| % 2 == 0 && |h| >= pre && forall i :: |h| - pre <= i < |h| ==> h[i])
      && (after == before + [UserSpeechEnd] <==>
            |before| % 2 == 1 && |h| >= post && forall i :: |h| - post <= i < |h| ==> !h[i])
      && (after == before || after == before + [UserSpeechStart] || after == before + [UserSpeechEnd])
  {
    Alternates(pre, post, h[..|h| - 1]);
    var before, after := Signals(pre, post, h[..|h| - 1]), Signals(pre, post, h);
    assert before + [UserSpeechStart] != before + [UserSpeechEnd] by {
      assert (before + [UserSpeechStart])[|before|] != (before + [UserSpeechEnd])[|before|];
    }
    assert |before + [UserSpeechStart]| != |before|;
  }

  // ---------------------------------------------------------------------------------------------
  // Runs, which is what the counters measure
  // ---------------------------------------------------------------------------------------------

  function RunOf(h: seq<bool>, speech: bool): (n: nat)
    ensures n <= |h|
  {
    if h == [] || h[|h| - 1] != speech then 0 else 1 + RunOf(h[..|h| - 1], speech)
  }

  lemma {:induction false} RunMeaning(h: seq<bool>, k: nat, speech: bool)
    ensures RunOf(h, speech) >= k <==> LastAll(h, k, speech)
  {
    if k > 0 && h != [] {
      var init := h[..|h| - 1];
      RunMeaning(init, k - 1, speech);
      if h[|h| - 1] == speech {
        if LastAll(init, k - 1, speech) {
          assert forall i :: |h| - k <= i < |h| - 1 ==> h[i] == init[i];
        }
        if LastAll(h, k, speech) {
          assert forall i :: |init| - (k - 1) <= i < |init| ==> init[i] == h[i];
        }
      }
    }
  }

  /** What one more classified frame does, in terms of runs. */
  lemma OneMoreFrame(pre: nat, post: nat, h: seq<bool>, v: bool)
    ensures var h' := h + [v];
      && RunOf(h', v) == RunOf(h, v) + 1 && RunOf(h', !v) == 0
      && Speaking(pre, post, h') == (if Speaking(pre, post, h) then RunOf(h', false) < post else RunOf(h', true) >= pre)
      && Signals(pre, post, h') == Signals(pre, post, h) +
           (if !Speaking(pre, post, h) && RunOf(h', true) >= pre then [UserSpeechStart]
            else if Speaking(pre, post, h) && RunOf(h', false) >= post then [UserSpeechEnd]
            else [])
  {
    var h' := h + [v];
    assert h'[..|h'| - 1] == h;
    RunMeaning(h', pre, true);
    RunMeaning(h', post, false);
  }

  /** The verdicts that count, in order: failed classifications are skipped. */
  function Classified(classify: seq<seq<Byte>> -> Verdict, frames: seq<seq<Byte>>): seq<bool> {
    if frames == [] then []
    else
      Classified(classify, frames[..|frames| - 1]) +
      match classify(frames)
      case Speech => [true]
      case Silence => [false]
      case Failed => []
  }

  /** The frames up to and including the k-th. */
  function Upto(frames: seq<seq<Byte>>, k: nat): seq<seq<Byte>>
    requires k < |frames|
  {
    frames[..k + 1]
  }

  /** The history has one entry for each frame whose classification did not fail, in order, and says
      whether it was speech. */
  lemma {:induction false} HistoryOfVerdicts(classify: seq<seq<Byte>> -> Verdict, frames: seq<seq<Byte>>) returns (at: seq<nat>)
    ensures var h := Classified(classify, frames);
      && |at| == |h|
      && (forall i :: 0 <= i < |at| ==> at[i] < |frames| && (h[i] <==> classify(Upto(frames, at[i])) == Speech))
      && (forall i, j :: 0 <= i < j < |at| ==> at[i] < at[j])
      && (forall k :: 0 <= k < |frames| ==> (k in at <==> classify(Upto(frames, k)) != Failed))
  {
    if frames == [] {
      at := [];
    } else {
      var n := |frames| - 1;
      var init := frames[..n];
      at := HistoryOfVerdicts(classify, init);
      assert forall k :: 0 <= k < n ==> Upto(init, k) == Upto(frames, k);
      assert Upto(frames, n) == frames;
      if classify(frames) != Failed {
        at := at + [n];
      }
    }
  }

  /** The signals for a stream of bytes, cut into frames all at once. */
  function StreamSignals(classify: seq<seq<Byte>> -> Verdict, n: nat, pre: nat, post: nat, bytes: seq<Byte>): seq<Signal>
    requires n > 0
  {
    Signals(pre, post, Classified(classify, Blocks(n, bytes)))
  }

  // ---------------------------------------------------------------------------------------------
  // The detector
  // ---------------------------------------------------------------------------------------------

  class Detector {
    /** The classifier's verdict on a frame, which may depend on all the frames it saw before. */
    const classify: seq<seq<Byte>> -> Verdict
    const frameBytes: nat
    const pre: nat
    const post: nat
    var frameBuf: seq<Byte>
    var speechFrames: nat
    var silenceFrames: nat
    var speaking: bool
    /** The signals sent since the last reset. */
    var sent: seq<Signal>

    /** What the classifier has seen since the last reset: its memory. */
    var frames: seq<seq<Byte>>
    /** All bytes received since the last reset. */
    ghost var received: seq<Byte>

    /** The counters are the runs they stand for; silence is counted only while speaking. */
    ghost predicate Follows(h: seq<bool>)
      reads this`sent, this`speaking, this`speechFrames, this`silenceFrames
    {
      && pre >= 1 && post >= 1 && frameBytes >= 1
      && sent == Signals(pre, post, h)
      && speaking == Speaking(pre, post, h)
      && speechFrames == RunOf(h, true)
      && silenceFrames == if speaking then RunOf(h, false) else 0
    }

    ghost predicate Tracks()
      reads this`frames, this`sent, this`speaking, this`speechFrames, this`silenceFrames
    {
      Follows(Classified(classify, frames))
    }

    ghost predicate Valid()
      reads this
    {
      Cut(received)
    }

    constructor (classify: seq<seq<Byte>> -> Verdict, config: Config)
      ensures Valid() && received == []
      ensures this.classify == classify && frameBytes == Normalized(config).frameBytes
      ensures pre == DurationToFrames(Normalized(config).speechMs) && post == DurationToFrames(Normalized(config).silenceMs)
    {
      var cfg := Normalized(config);
      this.classify, frameBytes := classify, cfg.frameBytes;
      pre, post := DurationToFrames(cfg.speechMs), DurationToFrames(cfg.silenceMs);
      frameBuf, speechFrames, silenceFrames, speaking, sent, frames, received := [], 0, 0, false, [], [], [];
    }

    method Reset()
      requires Valid()
      modifies this
      ensures Valid() && received == [] && sent == []
    {
      frameBuf, speechFrames, silenceFrames, speaking, sent, frames, received := [], 0, 0, false, [], [], [];
    }

    /** One verdict: start fires exactly when not speaking and the last `pre` classified frames are all
        speech, end exactly when speaking and the last `post` are all silence. */
    method Judge(speech: bool, ghost h: seq<bool>)
      requires Follows(h)
      modifies this`speechFrames, this`silenceFrames, this`speaking, this`sent
      ensures Follows(h + [speech])
    {
      OneMoreFrame(pre, post, h, speech);
      hide Signals, Speaking, RunOf;
      if speech {
        speechFrames := speechFrames + 1;
        silenceFrames := 0;
        if !speaking && speechFrames >= pre {
          speaking := true;
          sent := sent + [UserSpeechStart];
        }
        return;
      }
      speechFrames := 0;
      if !speaking { return; }
      silenceFrames := silenceFrames + 1;
      if silenceFrames >= post {
        speaking := false;
        silenceFrames := 0;
        sent := sent + [UserSpeechEnd];
      }
    }

    /** One frame.  A failed classification changes nothing. */
    method ProcessFrame(frame: seq<Byte>)
      requires Tracks()
      modifies this`speechFrames, this`silenceFrames, this`speaking, this`sent, this`frames
      ensures Tracks() && frames == old(frames) + [frame]
      ensures classify(frames) == Failed ==>
        && sent == old(sent) && speaking == old(speaking)
        && speechFrames == old(speechFrames) && silenceFrames == old(silenceFrames)
    {
      hide Follows;
      ghost var h := Classified(classify, frames);
      frames := frames + [frame];
      assert frames[..|frames| - 1] == old(frames);
      var verdict := classify(frames);
      if verdict.Failed? {
        assert Classified(classify, frames) == h;
        return;
      }
      Judge(verdict.Speech?, h);
    }

    /** The bytes taken so far are cut: whole frames processed, the rest kept. */
    ghost predicate Cut(taken: seq<Byte>)
      reads this
    {
      frameBytes >= 1 && Tracks() && frames == Blocks(frameBytes, taken) && frameBuf == Tail(frameBytes, taken)
    }

    /** Complete the frame left over from last time. */
    method TopUp(data: seq<Byte>, ghost before: seq<Byte>) returns (offset: nat)
      requires Cut(before)
      modifies this`speechFrames, this`silenceFrames, this`speaking, this`sent, this`frames, this`frameBuf
      ensures offset <= |data| && Cut(before + data[..offset]) && (frameBuf == [] || offset == |data|)
    {
      hide Tracks;
      offset := 0;
      assert before + data[..0] == before;
      if |frameBuf| > 0 {
        offset := if frameBytes - |frameBuf| < |data| then frameBytes - |frameBuf| else |data|;
        CutPiece(frameBytes, before, data[..offset]);
        frameBuf := frameBuf + data[..offset];
        if |frameBuf| == frameBytes {
          ProcessFrame(frameBuf);
          frameBuf := [];
        }
      }
    }

    /** Process the frames that lie whole in this chunk. */
    method WholeFrames(data: seq<Byte>, from: nat, ghost before: seq<Byte>) returns (offset: nat)
      requires from <= |data| && Cut(before + data[..from]) && (frameBuf == [] || from == |data|)
      modifies this`speechFrames, this`silenceFrames, this`speaking, this`sent, this`frames
      ensures from <= offset <= |data| < offset + frameBytes && Cut(before + data[..offset])
    {
      hide Tracks, Blocks, Tail;
      offset := from;
      while |data| - offset >= frameBytes
        invariant from <= offset <= |data| && Cut(before + data[..offset])
        invariant frameBuf == [] || offset == |data|
      {
        var end := offset + frameBytes;
        var frame := data[offset..end];
        CutPiece(frameBytes, before + data[..offset], frame);
        assert before + data[..offset] + frame == before + data[..end];
        assert frameBuf + frame == frame;
        ProcessFrame(frame);
        offset := end;
      }
    }

    /** One chunk of bytes.  However the bytes were chunked, the frames processed are the whole frames
        of all bytes received, less than one frame is kept, and the signals are those of the stream. */
    method ProcessAudio(data: seq<Byte>)
      requires Valid()
      modifies this
      ensures Valid() && received == old(received) + data
      ensures |frameBuf| < frameBytes
      ensures sent == StreamSignals(classify, frameBytes, pre, post, received)
    {
      var offset := TopUp(data, received);
      offset := WholeFrames(data, offset, received);
      ghost var taken := received + data[..offset];
      CutPiece(frameBytes, taken, data[offset..]);
      assert taken + data[offset..] == received + data;
      if |data| > offset {
        frameBuf := frameBuf + data[offset..];
      }
      received := received + data;
    }
  }
}
