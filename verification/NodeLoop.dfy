/** What a two-level select guarantees: a first select that looks at the high-priority queues only, and
    a second one, entered when those are empty, that takes from any queue at random. */
module Overtaking {

  /** One observation of a loop: whether it stands in its second select, and whether a high-priority
      message is queued. */
  datatype Obs = Obs(committed: bool, high: bool)

  /** Low-priority work starts only from the second select, which is entered only with nothing high queued. */
  ghost predicate TwoLevel(o: Obs, startsLow: bool, o': Obs) {
    && (startsLow ==> o.committed && !o'.committed)
    && (o'.committed && !o.committed ==> !o.high)
  }

  function Count(flags: seq<bool>): nat {
    if flags == [] then 0 else Count(flags[..|flags| - 1]) + if flags[|flags| - 1] then 1 else 0
  }

  /** While a high-priority message stays queued at most one low-priority event starts, and none if the
      loop was not already in its second select. */
  lemma {:induction false} AtMostOne(os: seq<Obs>, lows: seq<bool>)
    requires |os| == |lows| + 1
    requires forall i :: 0 <= i < |lows| ==> TwoLevel(os[i], lows[i], os[i + 1]) && os[i].high
    ensures Count(lows) + (if os[|lows|].committed then 1 else 0) <= if os[0].committed then 1 else 0
  {
    if lows != [] {
      var n := |lows| - 1;
      AtMostOne(os[..n + 1], lows[..n]);
      assert TwoLevel(os[n], lows[n], os[n + 1]);
    }
  }
}

/** A node with its own goroutine, as steps of that goroutine interleaved with those of its callers:
    the two-level select, and the protocol by which Stop ends the loop. */
module NodeLoop {
  import opened Overtaking

  datatype Control = Pause | Resume | StopLoop

  const CTRL_BUFFER: nat := 8
  const SIGNAL_BUFFER: nat := 12
  const PAYLOAD_BUFFER: nat := 24
  const AUDIO_BUFFER: nat := 64
  const VIDEO_BUFFER: nat := 24

  /** Where Start is: before OnStart's verdict, before and after the running flag is set, done. */
  datatype StartPc = Starting | StartFailed | Accepted | Flagged | Launched

  /** Where the loop goroutine is: at the check on top, in the first or the second select, in a
      handler, in the three steps of its deferred function, or gone. */
  datatype LoopPc = Absent | Top | First | Second | Handling | Leaving | Stopping | Draining | Gone

  /** The Stop call that found the flag set, between its swap and its send, or finished. */
  datatype StopPc = NoStop | Swapped | Sent

  /** Queues hold event ids.  lateReturn holds once a Stop call made after Start returned has itself
      returned; onStops counts the plugin's OnStop calls. */
  datatype State = State(
    ctrl: seq<Control>, signals: seq<nat>, payloads: seq<nat>, audios: seq<nat>, videos: seq<nat>,
    running: bool, cancelled: bool,
    start: StartPc, loop: LoopPc, stop: StopPc, lateReturn: bool, onStops: nat)

  ghost predicate Init(s: State) {
    s == State([], [], [], [], [], false, s.cancelled, Starting, Absent, NoStop, false, 0)
  }

  datatype Step =
    | StartSteps
    | CallStop
    | SendStop
    | PutCtrl(c: Control)
    | PutSignal(e: nat)
    | PutPayload(e: nat)
    | PutAudio(e: nat)
    | PutVideo(e: nat)
    | Cancel
    | LoopStep(low: bool)

  // Steps of the callers.  A Pause or Input that saw the node running may put its message in at any
  // later time at which there is room.

  ghost predicate StartMoves(s: State, s': State) {
    match s.start
    case Starting => s' == s.(start := StartFailed) || s' == s.(start := Accepted)
    case Accepted => s' == s.(start := Flagged, running := true)
    case Flagged => s' == s.(start := Launched, loop := Top)
    case _ => false
  }

  function StopCalled(s: State): State {
    if s.running then s.(running := false, stop := Swapped)
    else s.(lateReturn := s.lateReturn || s.start == Launched)
  }

  function StopSent(s: State): State {
    s.(ctrl := if |s.ctrl| < CTRL_BUFFER then s.ctrl + [StopLoop] else s.ctrl,
       stop := Sent, lateReturn := s.lateReturn || s.start == Launched)
  }

  // Steps of the loop goroutine

  function TakeCtrl(s: State): State
    requires s.ctrl != []
  {
    s.(ctrl := s.ctrl[1..], loop := if s.ctrl[0] == StopLoop then Leaving else Handling)
  }

  ghost predicate LoopMoves(s: State, low: bool, s': State) {
    match s.loop
    case Top =>
      !low && s' == s.(loop := if s.cancelled || !s.running then Leaving else First)
    case First =>
      && !low
      && if s.cancelled || s.signals != [] || s.ctrl != [] then
           || (s.cancelled && s' == s.(loop := Leaving))
           || (s.signals != [] && s' == s.(signals := s.signals[1..], loop := Handling))
           || (s.ctrl != [] && s' == TakeCtrl(s))
         else s' == s.(loop := Second)
    case Second =>
      || (!low && s.cancelled && s' == s.(loop := Leaving))
      || (!low && s.ctrl != [] && s' == TakeCtrl(s))
      || (!low && s.signals != [] && s' == s.(signals := s.signals[1..], loop := Handling))
      || (low && s.payloads != [] && s' == s.(payloads := s.payloads[1..], loop := Handling))
      || (low && s.audios != [] && s' == s.(audios := s.audios[1..], loop := Handling))
      || (low && s.videos != [] && s' == s.(videos := s.videos[1..], loop := Handling))
    case Handling => !low && s' == s.(loop := Top)
    case Leaving => !low && s' == s.(running := false, loop := Stopping)
    case Stopping => !low && s' == s.(onStops := s.onStops + 1, loop := Draining)
    case Draining =>
      && !low
      && if s.audios != [] || s.videos != [] then
           || (s.audios != [] && s' == s.(audios := s.audios[1..]))
           || (s.videos != [] && s' == s.(videos := s.videos[1..]))
         else s' == s.(loop := Gone)
    case _ => false
  }

  ghost predicate Next(s: State, step: Step, s': State) {
    match step
    case StartSteps => StartMoves(s, s')
    case CallStop => s' == StopCalled(s)
    case SendStop => s.stop == Swapped && s' == StopSent(s)
    case PutCtrl(c) => c != StopLoop && |s.ctrl| < CTRL_BUFFER && s' == s.(ctrl := s.ctrl + [c])
    case PutSignal(e) => |s.signals| < SIGNAL_BUFFER && s' == s.(signals := s.signals + [e])
    case PutPayload(e) => |s.payloads| < PAYLOAD_BUFFER && s' == s.(payloads := s.payloads + [e])
    case PutAudio(e) => |s.audios| < AUDIO_BUFFER && s' == s.(audios := s.audios + [e])
    case PutVideo(e) => |s.videos| < VIDEO_BUFFER && s' == s.(videos := s.videos + [e])
    case Cancel => s' == s.(cancelled := true)
    case LoopStep(low) => LoopMoves(s, low, s')
  }

  ghost predicate Run(ss: seq<State>, steps: seq<Step>) {
    && |ss| == |steps| + 1 && Init(ss[0])
    && forall i :: 0 <= i < |steps| ==> Next(ss[i], steps[i], ss[i + 1])
  }

  // ---------------------------------------------------------------------------------------------
  // Bounded overtaking
  // ---------------------------------------------------------------------------------------------

  ghost predicate HighQueued(s: State) {
    s.ctrl != [] || s.signals != []
  }

  function StartsLow(step: Step): bool {
    step.LoopStep? && step.low
  }

  function Lows(steps: seq<Step>): (flags: seq<bool>)
    ensures |flags| == |steps| && forall t :: 0 <= t < |steps| ==> flags[t] == StartsLow(steps[t])
  {
    seq(|steps|, t requires 0 <= t < |steps| => StartsLow(steps[t]))
  }

  ghost function Observed(s: State): Obs {
    Obs(s.loop == Second, HighQueued(s))
  }

  lemma StepIsTwoLevel(s: State, step: Step, s': State)
    requires Next(s, step, s')
    ensures TwoLevel(Observed(s), StartsLow(step), Observed(s'))
  {
  }

  /** Over any stretch of a run in which a signal or control message is always queued, at most one
      payload, audio or video event starts. */
  lemma BoundedOvertaking(ss: seq<State>, steps: seq<Step>, i: nat, j: nat)
    requires Run(ss, steps) && i <= j <= |steps|
    requires forall t :: i <= t < j ==> HighQueued(ss[t])
    ensures Count(Lows(steps[i..j])) <= if ss[i].loop == Second then 1 else 0
  {
    hide Next, TwoLevel;
    var os := seq(j - i + 1, t requires 0 <= t < j - i + 1 => Observed(ss[i + t]));
    var lows := Lows(steps[i..j]);
    forall t | 0 <= t < j - i ensures TwoLevel(os[t], lows[t], os[t + 1]) && os[t].high {
      assert Next(ss[i + t], steps[i + t], ss[i + t + 1]) && steps[i..j][t] == steps[i + t];
      StepIsTwoLevel(ss[i + t], steps[i + t], ss[i + t + 1]);
    }
    assert os[0] == Observed(ss[i + 0]);
    AtMostOne(os, lows);
  }

  // ---------------------------------------------------------------------------------------------
  // Order
  // ---------------------------------------------------------------------------------------------

  /** No queue but the control queue, which lost its head, or nothing at all, has changed. */
  predicate OnlyCtrl(s: State, s': State) {
    && (s'.ctrl == s.ctrl || (s.ctrl != [] && s'.ctrl == s.ctrl[1..]))
    && s'.signals == s.signals && s'.payloads == s.payloads && s'.audios == s.audios && s'.videos == s.videos
  }

  /** Exactly one message has been taken, from the head of one queue; low says from which kind. */
  predicate OneHead(s: State, low: bool, s': State) {
    || (!low && s.ctrl != [] && s.ctrl[0] != StopLoop && s' == s.(ctrl := s.ctrl[1..], loop := s'.loop))
    || (!low && s.signals != [] && s' == s.(signals := s.signals[1..], loop := s'.loop))
    || (low && s.payloads != [] && s' == s.(payloads := s.payloads[1..], loop := s'.loop))
    || (low && s.audios != [] && s' == s.(audios := s.audios[1..], loop := s'.loop))
    || (low && s.videos != [] && s' == s.(videos := s.videos[1..], loop := s'.loop))
  }

  /** Messages are handled in the order of their queues: what the loop starts to handle is the head of one
      queue, and only that leaves; the stop message ends the loop; senders only append.  When draining ends
      no audio or video is left. */
  lemma HandledFromTheHead(s: State, step: Step, s': State)
    requires Next(s, step, s')
    ensures step.LoopStep? && s'.loop == Handling ==> OneHead(s, step.low, s')
    ensures step.LoopStep? && s'.loop != Handling && s.loop != Draining ==> OnlyCtrl(s, s')
    ensures step.LoopStep? && s'.ctrl != s.ctrl && s'.loop != Handling ==> s.ctrl[0] == StopLoop && s'.loop == Leaving
    ensures !step.LoopStep? ==>
      s.ctrl <= s'.ctrl && s.signals <= s'.signals && s.payloads <= s'.payloads && s.audios <= s'.audios && s.videos <= s'.videos
    ensures s.loop == Draining && s'.loop == Gone ==> s.audios == [] && s.videos == []
  {
    if step.LoopStep? {
      TakenFromTheHead(s, step.low, s');
      hide LoopMoves;
    } else {
      hide OneHead, OnlyCtrl, LoopMoves;
    }
  }

  lemma TakenFromTheHead(s: State, low: bool, s': State)
    requires LoopMoves(s, low, s')
    ensures s'.loop == Handling ==> OneHead(s, low, s')
    ensures s'.loop != Handling && s.loop != Draining ==> OnlyCtrl(s, s')
    ensures s'.ctrl != s.ctrl && s'.loop != Handling ==> s.ctrl[0] == StopLoop && s'.loop == Leaving
    ensures s.loop == Draining && s'.loop == Gone ==> s.audios == [] && s.videos == []
  {
    match s.loop
    case First =>
    case Second =>
    case _ =>
  }

  // ---------------------------------------------------------------------------------------------
  // The stop protocol
  // ---------------------------------------------------------------------------------------------

  /** The loop waits in a select in which nothing is ready. */
  ghost predicate Blocked(s: State) {
    s.loop == Second && !s.cancelled && s.ctrl == [] && s.signals == [] && s.payloads == [] && s.audios == [] && s.videos == []
  }

  ghost predicate Inv(s: State) {
    && (s.loop == Absent <==> s.start != Launched)
    && (s.running ==> s.start == Flagged || s.start == Launched)
    && (s.stop != NoStop ==> !s.running && (s.start == Flagged || s.start == Launched))
    && (s.start == Flagged ==> s.running || s.stop != NoStop)
    && (s.start == Launched && !s.running && s.stop == NoStop ==> s.loop.Stopping? || s.loop.Draining? || s.loop.Gone?)
    && (s.stop == Sent && (s.loop == First || s.loop == Second) ==> s.ctrl != [])
    && (s.loop.Stopping? || s.loop.Draining? || s.loop.Gone? ==> !s.running)
    && s.onStops == (if s.loop.Draining? || s.loop.Gone? then 1 else 0)
    && (s.lateReturn ==> s.start == Launched && !s.running)
  }

  lemma LoopInv(s: State, low: bool, s': State)
    requires Inv(s) && LoopMoves(s, low, s')
    ensures Inv(s')
  {
    match s.loop
    case First =>
    case Second =>
    case _ =>
  }

  lemma StopInv(s: State)
    requires Inv(s)
    ensures Inv(StopCalled(s)) && (s.stop == Swapped ==> Inv(StopSent(s)))
  {
  }

  lemma StepInv(s: State, step: Step, s': State)
    requires Inv(s) && Next(s, step, s')
    ensures Inv(s')
  {
    hide LoopMoves, StopCalled, StopSent;
    match step
    case LoopStep(low) => LoopInv(s, low, s');
    case CallStop => StopInv(s);
    case SendStop => StopInv(s);
    case StartSteps =>
    case _ =>
  }

  lemma {:induction false} EveryRun(ss: seq<State>, steps: seq<Step>, n: nat)
    requires Run(ss, steps) && n < |ss|
    ensures Inv(ss[n])
  {
    hide Next, Inv;
    if n == 0 {
      InitInv(ss[0]);
    } else {
      EveryRun(ss, steps, n - 1);
      StepInv(ss[n - 1], steps[n - 1], ss[n]);
    }
  }

  lemma InitInv(s: State)
    requires Init(s)
    ensures Inv(s)
  {
  }

  /** After the Stop call that cleared the flag has returned, the loop is never blocked, whether its
      message went into the control queue or found it full.  A second, overlapping Stop may return
      earlier; then a blocked loop still has the first one's send to come. */
  lemma StopUnblocks(ss: seq<State>, steps: seq<Step>, n: nat)
    requires Run(ss, steps) && n < |ss|
    ensures ss[n].stop == Sent ==> !Blocked(ss[n])
    ensures ss[n].lateReturn && Blocked(ss[n]) ==> ss[n].stop == Swapped
    ensures ss[n].stop == Swapped ==> exists s' :: Next(ss[n], SendStop, s') && s'.stop == Sent
  {
    EveryRun(ss, steps, n);
    assert ss[n].stop == Swapped ==> Next(ss[n], SendStop, StopSent(ss[n]));
  }

  /** A Stop call made while another is between its swap and its send. */
  ghost predicate Overlaps(ss: seq<State>, steps: seq<Step>, t: nat)
    requires t < |steps| < |ss|
  {
    steps[t] == CallStop && ss[t].stop == Swapped && ss[t].start == Launched
  }

  /** Without such a call, no loop is blocked once a Stop made after Start has returned. */
  lemma {:induction false} OnlyOverlapBlocks(ss: seq<State>, steps: seq<Step>, n: nat)
    requires Run(ss, steps) && n < |ss| && forall t :: 0 <= t < n ==> !Overlaps(ss, steps, t)
    ensures !(ss[n].lateReturn && ss[n].stop == Swapped)
    ensures ss[n].lateReturn ==> !Blocked(ss[n])
  {
    StopUnblocks(ss, steps, n);
    if n > 0 {
      OnlyOverlapBlocks(ss, steps, n - 1);
      EveryRun(ss, steps, n - 1);
      assert !Overlaps(ss, steps, n - 1);
      NoOverlapStep(ss[n - 1], steps[n - 1], ss[n]);
      hide Next, Inv, Blocked;
    }
  }

  lemma NoOverlapStep(s: State, step: Step, s': State)
    requires Inv(s) && Next(s, step, s') && !(s.lateReturn && s.stop == Swapped)
    requires !(step == CallStop && s.stop == Swapped && s.start == Launched)
    ensures !(s'.lateReturn && s'.stop == Swapped)
  {
  }

  /** The loop is between its check of the flag and a wait, with nothing that would end the wait. */
  ghost predicate Poised(s: State) {
    && (s.loop == First || s.loop == Second) && !s.cancelled
    && s.ctrl == [] && s.signals == [] && s.payloads == [] && s.audios == [] && s.videos == []
  }

  /** A stretch of steps from a state. */
  ghost predicate Path(s: State, ss: seq<State>, steps: seq<Step>) {
    && |ss| == |steps| + 1 && ss[0] == s
    && forall i :: 0 <= i < |steps| ==> Next(ss[i], steps[i], ss[i + 1])
  }

  /** Some continuation ends with a Stop call back and the loop blocked. */
  ghost predicate MayBlock(s: State) {
    exists ss: seq<State>, steps: seq<Step> :: Path(s, ss, steps) && ss[|steps|].lateReturn && Blocked(ss[|steps|])
  }

  lemma NotPoisedStep(s: State, step: Step, s': State)
    requires Inv(s) && Next(s, step, s') && !Poised(s) && (s.stop != NoStop)
    ensures !Poised(s') && s'.stop != NoStop
  {
  }

  /** Once the flag is cleared, a loop that is not poised never will be. */
  lemma {:induction false} NeverPoised(s: State, ss: seq<State>, steps: seq<Step>)
    requires Inv(s) && Path(s, ss, steps) && !Poised(s) && s.stop != NoStop
    ensures Inv(ss[|steps|]) && !Poised(ss[|steps|]) && ss[|steps|].stop != NoStop
    decreases |steps|
  {
    hide Next, Inv, Poised;
    var n := |steps|;
    if n > 0 {
      assert Path(s, ss[..n], steps[..n - 1]);
      NeverPoised(s, ss[..n], steps[..n - 1]);
      assert ss[..n][n - 1] == ss[n - 1];
      NotPoisedStep(ss[n - 1], steps[n - 1], ss[n]);
      StepInv(ss[n - 1], steps[n - 1], ss[n]);
    }
  }

  /** A poised loop, with the stopping call still to send: a second Stop comes back at once. */
  lemma PoisedMayBlock(s: State)
    requires Inv(s) && Poised(s) && s.stop == Swapped
    ensures MayBlock(s)
  {
    var waiting := s.(loop := Second);
    var back := waiting.(lateReturn := true);
    assert Next(waiting, CallStop, back) && Blocked(back);
    if s.loop == First {
      assert Next(s, LoopStep(false), waiting);
      assert Path(s, [s, waiting, back], [LoopStep(false), CallStop]);
      assert [s, waiting, back][|[LoopStep(false), CallStop]|] == back;
    } else {
      assert s == waiting;
      assert Path(s, [s, back], [CallStop]);
      assert [s, back][|[CallStop]|] == back;
    }
  }

  /** Exactly when an overlapping Stop can leave the loop blocked: in every reachable state in which a
      Stop has cleared the flag and not yet sent, another Stop can come back to a blocked loop if and
      only if the loop is poised.  Once the stopping call has sent, none can. */
  lemma BlockedIffPoised(ss: seq<State>, steps: seq<Step>, n: nat)
    requires Run(ss, steps) && n < |ss| && ss[n].stop != NoStop
    ensures ss[n].stop == Swapped ==> (MayBlock(ss[n]) <==> Poised(ss[n]))
    ensures ss[n].stop == Sent ==> !Poised(ss[n]) && !MayBlock(ss[n])
  {
    var s := ss[n];
    EveryRun(ss, steps, n);
    if Poised(s) && s.stop == Swapped {
      PoisedMayBlock(s);
    }
    assert s.stop == Sent ==> !Poised(s);
    if !Poised(s) && MayBlock(s) {
      var ts: seq<State>, us: seq<Step> :| Path(s, ts, us) && ts[|us|].lateReturn && Blocked(ts[|us|]);
      NeverPoised(s, ts, us);
    }
  }

  /** The overlapping case happens: two Stop calls, the second back before the first has sent. */
  lemma OverlappingStops() returns (ss: seq<State>, steps: seq<Step>)
    ensures Run(ss, steps) && ss[|steps|].lateReturn && Blocked(ss[|steps|])
  {
    var s0 := State([], [], [], [], [], false, false, Starting, Absent, NoStop, false, 0);
    var s1 := s0.(start := Accepted);
    var s2 := s1.(start := Flagged, running := true);
    var s3 := s2.(start := Launched, loop := Top);
    var s4 := s3.(loop := First);
    var s5 := s4.(loop := Second);
    var s6 := s5.(running := false, stop := Swapped);
    var s7 := s6.(lateReturn := true);
    ss := [s0, s1, s2, s3, s4, s5, s6, s7];
    steps := [StartSteps, StartSteps, StartSteps, LoopStep(false), LoopStep(false), CallStop, CallStop];
  }

  /** OnStop is called once for a loop that was started and not at all for one that was not. */
  lemma OneOnStop(ss: seq<State>, steps: seq<Step>, n: nat)
    requires Run(ss, steps) && n < |ss|
    ensures ss[n].onStops <= 1
    ensures ss[n].onStops == 1 <==> ss[n].loop == Draining || ss[n].loop == Gone
    ensures ss[n].start != Launched ==> ss[n].onStops == 0
  {
    EveryRun(ss, steps, n);
  }

  /** How many of its own steps the loop can take before OnStop, once the flag is down. */
  function StepsLeft(s: State): nat {
    match s.loop
    case First => 5
    case Second => 4
    case Handling => 3
    case Top => 2
    case Leaving => 1
    case _ => 0
  }

  /** A started loop that is to end: its flag is down or its context is cancelled. */
  predicate Ending(s: State) {
    s.start == Launched && (!s.running || s.cancelled)
  }

  /** The loop's own steps up to and including OnStop; none once OnStop has been called. */
  function Countdown(s: State): nat {
    if s.onStops > 0 then 0 else StepsLeft(s) + 1
  }

  /** A loop that is to end goes straight to OnStop: each of its steps brings it nearer, no step of
      anyone else takes it back, and it is stuck only while the stopping call has still to send. */
  lemma StopLeadsToOnStop(ss: seq<State>, steps: seq<Step>, n: nat)
    requires Run(ss, steps) && n < |steps| && Ending(ss[n])
    ensures Ending(ss[n + 1])
    ensures steps[n].LoopStep? && ss[n].onStops == 0 ==> Countdown(ss[n + 1]) < Countdown(ss[n])
    ensures !steps[n].LoopStep? ==> ss[n + 1].loop == ss[n].loop && Countdown(ss[n + 1]) == Countdown(ss[n])
    ensures ss[n].onStops == 0 && !Blocked(ss[n]) ==> exists low, s' :: LoopMoves(ss[n], low, s')
  {
    var s := ss[n];
    EveryRun(ss, steps, n);
    EndingStep(s, steps[n], ss[n + 1]);
    if s.onStops == 0 && !Blocked(s) {
      hide Next;
      CanMove(s);
    }
  }

  lemma EndingStep(s: State, step: Step, s': State)
    requires Inv(s) && Next(s, step, s') && Ending(s)
    ensures Ending(s') && s.onStops <= s'.onStops
    ensures step.LoopStep? && s.onStops == 0 ==> Countdown(s') < Countdown(s)
    ensures !step.LoopStep? ==> s'.loop == s.loop && s'.onStops == s.onStops
    ensures Countdown(s') <= Countdown(s)
  {
  }

  lemma CanMove(s: State)
    requires Inv(s) && s.start == Launched && s.onStops == 0 && !Blocked(s)
    ensures exists low, s' :: LoopMoves(s, low, s')
  {
    match s.loop
    case Top => assert LoopMoves(s, false, s.(loop := if s.cancelled || !s.running then Leaving else First));
    case First =>
      if s.cancelled { assert LoopMoves(s, false, s.(loop := Leaving)); }
      else if s.signals != [] { assert LoopMoves(s, false, s.(signals := s.signals[1..], loop := Handling)); }
      else if s.ctrl != [] { assert LoopMoves(s, false, TakeCtrl(s)); }
      else { assert LoopMoves(s, false, s.(loop := Second)); }
    case Second =>
      if s.cancelled { assert LoopMoves(s, false, s.(loop := Leaving)); }
      else if s.ctrl != [] { assert LoopMoves(s, false, TakeCtrl(s)); }
      else if s.signals != [] { assert LoopMoves(s, false, s.(signals := s.signals[1..], loop := Handling)); }
      else if s.payloads != [] { assert LoopMoves(s, true, s.(payloads := s.payloads[1..], loop := Handling)); }
      else if s.audios != [] { assert LoopMoves(s, true, s.(audios := s.audios[1..], loop := Handling)); }
      else { assert LoopMoves(s, true, s.(videos := s.videos[1..], loop := Handling)); }
    case Handling => assert LoopMoves(s, false, s.(loop := Top));
    case Leaving => assert LoopMoves(s, false, s.(running := false, loop := Stopping));
    case Stopping => assert LoopMoves(s, false, s.(onStops := s.onStops + 1, loop := Draining));
    case _ =>
  }
}

/** A worker of the shared pool: one loop over a high-priority and a normal queue of tasks. */
module WorkerLoop {
  import opened Overtaking

  datatype LoopPc = First | Second | Executing | Draining | Gone

  /** Tasks are ids; both queues have the same capacity. */
  datatype State = State(capacity: nat, high: seq<nat>, normal: seq<nat>, cancelled: bool, loop: LoopPc)

  datatype Step = PutHigh(task: nat) | PutNormal(task: nat) | Cancel | LoopStep(low: bool)

  ghost predicate LoopMoves(s: State, low: bool, s': State) {
    match s.loop
    case First =>
      && !low
      && if s.cancelled || s.high != [] then
           || (s.cancelled && s' == s.(loop := Draining))
           || (s.high != [] && s' == s.(high := s.high[1..], loop := Executing))
         else s' == s.(loop := Second)
    case Second =>
      || (!low && s.cancelled && s' == s.(loop := Draining))
      || (!low && s.high != [] && s' == s.(high := s.high[1..], loop := Executing))
      || (low && s.normal != [] && s' == s.(normal := s.normal[1..], loop := Executing))
    case Executing => !low && s' == s.(loop := First)
    case Draining =>
      && !low
      && if s.high != [] || s.normal != [] then
           || (s.high != [] && s' == s.(high := s.high[1..]))
           || (s.normal != [] && s' == s.(normal := s.normal[1..]))
         else s' == s.(loop := Gone)
    case Gone => false
  }

  ghost predicate Next(s: State, step: Step, s': State) {
    match step
    case PutHigh(t) => |s.high| < s.capacity && s' == s.(high := s.high + [t])
    case PutNormal(t) => |s.normal| < s.capacity && s' == s.(normal := s.normal + [t])
    case Cancel => s' == s.(cancelled := true)
    case LoopStep(low) => LoopMoves(s, low, s')
  }

  ghost predicate Run(ss: seq<State>, steps: seq<Step>) {
    && |ss| == |steps| + 1 && ss[0].loop == First && ss[0].high == ss[0].normal == []
    && forall i :: 0 <= i < |steps| ==> Next(ss[i], steps[i], ss[i + 1])
  }

  ghost function Observed(s: State): Obs {
    Obs(s.loop == Second, s.high != [])
  }

  function Lows(steps: seq<Step>): (flags: seq<bool>)
    ensures |flags| == |steps| && forall t :: 0 <= t < |steps| ==> flags[t] == (steps[t].LoopStep? && steps[t].low)
  {
    seq(|steps|, t requires 0 <= t < |steps| => steps[t].LoopStep? && steps[t].low)
  }

  /** While a high-priority task stays queued the worker starts at most one normal task. */
  lemma BoundedOvertaking(ss: seq<State>, steps: seq<Step>, i: nat, j: nat)
    requires Run(ss, steps) && i <= j <= |steps|
    requires forall t :: i <= t < j ==> ss[t].high != []
    ensures Count(Lows(steps[i..j])) <= if ss[i].loop == Second then 1 else 0
  {
    hide Next, TwoLevel;
    var os := seq(j - i + 1, t requires 0 <= t < j - i + 1 => Observed(ss[i + t]));
    var lows := Lows(steps[i..j]);
    forall t | 0 <= t < j - i ensures TwoLevel(os[t], lows[t], os[t + 1]) && os[t].high {
      assert Next(ss[i + t], steps[i + t], ss[i + t + 1]) && steps[i..j][t] == steps[i + t];
      StepIsTwoLevel(ss[i + t], steps[i + t], ss[i + t + 1]);
    }
    assert os[0] == Observed(ss[i + 0]);
    AtMostOne(os, lows);
  }

  /** A worker executes the head of one of its queues, and when draining ends both are empty. */
  lemma ExecutedFromTheHead(s: State, step: Step, s': State)
    requires Next(s, step, s')
    ensures step.LoopStep? && s'.loop == Executing ==>
      if step.low then s.normal != [] && s' == s.(normal := s.normal[1..], loop := Executing)
      else s.high != [] && s' == s.(high := s.high[1..], loop := Executing)
    ensures !step.LoopStep? ==> s.high <= s'.high && s.normal <= s'.normal
    ensures s.loop == Draining && s'.loop == Gone ==> s.high == [] && s.normal == []
    ensures s.loop != Draining && s'.loop == Draining ==> s.cancelled
  {
  }

  lemma StepIsTwoLevel(s: State, step: Step, s': State)
    requires Next(s, step, s')
    ensures TwoLevel(Observed(s), step.LoopStep? && step.low, Observed(s'))
  {
  }
}

/** Starting and stopping a workflow whose nodes run on the worker pool. */
module Lifecycle {
  datatype WorkflowState = Pending | Starting | Running | Stopped

  class SchedulerNode {
    var running: bool
    var onStarts: nat
    var onStops: nat

    constructor ()
      ensures !running && onStarts == 0 && onStops == 0
    {
      running, onStarts, onStops := false, 0, 0;
    }

    /** accepts is the verdict of the plugin's OnStart. */
    method Start(accepts: bool)
      modifies this
      ensures onStarts == old(onStarts) + 1 && onStops == old(onStops)
      ensures running == (accepts || old(running))
    {
      onStarts := onStarts + 1;
      if accepts {
        running := true;
      }
    }

    method Stop()
      modifies this
      ensures !running && onStarts == old(onStarts) && onStops == old(onStops) + if old(running) then 1 else 0
    {
      if running {
        running := false;
        onStops := onStops + 1;
      }
    }
  }

  /** A node that Start accepted has one OnStop when it is down and none while it is up. */
  ghost predicate Balanced(n: SchedulerNode, started: bool)
    reads n
  {
    if started then n.onStops == if n.running then 0 else 1
    else !n.running && n.onStops == 0
  }

  class Workflow {
    const nodes: seq<SchedulerNode>
    var state: WorkflowState
    /** How many nodes, from the front, OnStart has accepted. */
    ghost var started: nat

    ghost predicate Valid()
      reads this, nodes
    {
      && (forall i, j :: 0 <= i < j < |nodes| ==> nodes[i] != nodes[j])
      && started <= |nodes|
      && (forall i :: 0 <= i < |nodes| ==> Balanced(nodes[i], i < started))
      && (forall i :: 0 <= i < |nodes| ==> nodes[i].running == (i < started && state == Running))
      && (state == Pending ==> started == 0)
    }

    constructor (nodes: seq<SchedulerNode>)
      requires forall i, j :: 0 <= i < j < |nodes| ==> nodes[i] != nodes[j]
      requires forall i :: 0 <= i < |nodes| ==> !nodes[i].running && nodes[i].onStops == 0
      ensures Valid() && this.nodes == nodes && state == Pending
    {
      this.nodes := nodes;
      state := Pending;
      started := 0;
    }

    /** Rolls back the nodes 0..index, last one first. */
    method ClearStartError(index: int)
      requires -1 <= index < |nodes| && forall i, j :: 0 <= i < j < |nodes| ==> nodes[i] != nodes[j]
      modifies nodes
      ensures forall i :: 0 <= i < |nodes| ==> nodes[i].onStarts == old(nodes[i].onStarts)
      ensures forall i :: 0 <= i <= index ==>
        !nodes[i].running && nodes[i].onStops == old(nodes[i].onStops) + if old(nodes[i].running) then 1 else 0
      ensures forall i :: index < i < |nodes| ==> unchanged(nodes[i])
    {
      var i := index;
      while i >= 0
        invariant -1 <= i <= index
        invariant forall j :: 0 <= j < |nodes| ==> nodes[j].onStarts == old(nodes[j].onStarts)
        invariant forall j :: i < j <= index ==>
          !nodes[j].running && nodes[j].onStops == old(nodes[j].onStops) + if old(nodes[j].running) then 1 else 0
        invariant forall j :: 0 <= j <= i ==> unchanged(nodes[j])
        invariant forall j :: index < j < |nodes| ==> unchanged(nodes[j])
      {
        nodes[i].Stop();
        i := i - 1;
      }
    }

    /** accepts[i] is the verdict of node i's OnStart.  A refusal stops exactly the nodes already
        started, each with one OnStop, and leaves the workflow stopped. */
    method Start(accepts: seq<bool>) returns (ok: bool)
      requires Valid() && |accepts| == |nodes|
      modifies this, nodes
      ensures Valid()
      ensures old(state) != Pending ==> !ok && state == old(state) && started == old(started)
      ensures old(state) != Pending ==> forall i :: 0 <= i < |nodes| ==> unchanged(nodes[i])
      ensures old(state) == Pending ==>
        && (ok <==> forall i :: 0 <= i < |accepts| ==> accepts[i])
        && (ok ==> state == Running && started == |nodes|)
        && (!ok ==> state == Stopped && started < |nodes| && !accepts[started] && forall i :: 0 <= i < started ==> accepts[i])
    {
      if state != Pending {
        return false;
      }
      state := Starting;
      for i := 0 to |nodes|
        invariant state == Starting && started == i
        invariant forall j :: 0 <= j < i ==> accepts[j] && nodes[j].running && nodes[j].onStops == 0
        invariant forall j :: i <= j < |nodes| ==> !nodes[j].running && nodes[j].onStops == 0
      {
        nodes[i].Start(accepts[i]);
        if !accepts[i] {
          ClearStartError(i - 1);
          state := Stopped;
          return false;
        }
        started := i + 1;
      }
      state := Running;
      return true;
    }

    /** Stopping twice is the same as stopping once. */
    method Stop()
      requires Valid()
      modifies this, nodes
      ensures Valid() && state == Stopped && started == old(started)
      ensures old(state) == Stopped ==> forall i :: 0 <= i < |nodes| ==> unchanged(nodes[i])
    {
      if state == Stopped {
        return;
      }
      state := Stopped;
      for i := 0 to |nodes|
        invariant state == Stopped && started == old(started)
        invariant forall j :: i <= j < |nodes| ==> unchanged(nodes[j])
        invariant forall j :: 0 <= j < i ==> !nodes[j].running && Balanced(nodes[j], j < started)
      {
        nodes[i].Stop();
      }
    }
  }
}
