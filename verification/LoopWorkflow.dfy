/** Starting, rolling back and stopping a workflow whose nodes run their own loops.  Start, any number of
    Stop calls, the nodes' loops and the senders interleave freely; every node is a NodeLoop machine. */
module LoopWorkflow {
  import opened Options
  import N = NodeLoop

  /** The workflow's state word. */
  datatype Word = Pending | Starting | Running | Paused | Stopped

  /** Start: not called, starting node k, rolling back after node k refused, returned with an error, or
      returned without one.  While it rolls back it is at node i, and swapped holds when it has cleared
      that node's flag and still has to send. */
  datatype StartPc = Uncalled | At(k: nat) | Back(k: nat, i: int, swapped: bool) | Refused(k: nat) | Done

  /** A Stop call that found the word not Stopped: before it cancels the context, at node i, or returned.
      late holds when Start had returned without an error before it. */
  datatype StopPc = Entered(late: bool) | Visiting(i: nat, swapped: bool, late: bool) | Returned(late: bool)

  datatype State = State(nodes: seq<N.State>, word: Word, cancelled: bool, start: StartPc, stops: seq<StopPc>)

  datatype Step =
    | BeginStart
    | StartNode
    | MarkRunning
    | RollBack
    | RollBackSend
    | MarkRefused
    | CallStop
    | CancelContext(t: nat)
    | StopNode(t: nat)
    | StopNodeSend(t: nat)
    | StopReturns(t: nat)
    | ParentCancels
    | Pause
    | Resume
    | NodeStep(i: nat, step: N.Step)

  ghost predicate Init(s: State) {
    && s.word == Pending && s.start == Uncalled && s.stops == []
    && forall i :: 0 <= i < |s.nodes| ==> N.Init(s.nodes[i]) && s.nodes[i].cancelled == s.cancelled
  }

  /** All nodes share the workflow's context. */
  function CancelAll(nodes: seq<N.State>): seq<N.State> {
    seq(|nodes|, i requires 0 <= i < |nodes| => nodes[i].(cancelled := true))
  }

  /** Where Start is after node k has moved. */
  function AfterNode(k: nat, node: N.State): StartPc {
    match node.start
    case StartFailed => Back(k, k - 1, false)
    case Launched => At(k + 1)
    case _ => At(k)
  }

  ghost predicate StartsNode(s: State, s': State) {
    && s.start.At? && s.start.k < |s.nodes| && |s'.nodes| == |s.nodes|
    && var k := s.start.k;
       && N.StartMoves(s.nodes[k], s'.nodes[k])
       && s' == s.(nodes := s.nodes[k := s'.nodes[k]], start := AfterNode(k, s'.nodes[k]))
  }

  ghost predicate RollsBack(s: State, s': State) {
    && s.start.Back? && 0 <= s.start.i < |s.nodes| && !s.start.swapped
    && var i := s.start.i;
       s' == s.(nodes := s.nodes[i := N.StopCalled(s.nodes[i])],
                start := if s.nodes[i].running then s.start.(swapped := true) else s.start.(i := i - 1))
  }

  ghost predicate RollsBackSend(s: State, s': State) {
    && s.start.Back? && 0 <= s.start.i < |s.nodes| && s.start.swapped && s.nodes[s.start.i].stop == N.Swapped
    && s' == s.(nodes := s.nodes[s.start.i := N.StopSent(s.nodes[s.start.i])],
                start := Back(s.start.k, s.start.i - 1, false))
  }

  ghost predicate StopsNode(s: State, t: nat, s': State) {
    && t < |s.stops| && s.stops[t].Visiting? && s.stops[t].i < |s.nodes| && !s.stops[t].swapped
    && var i := s.stops[t].i;
       s' == s.(nodes := s.nodes[i := N.StopCalled(s.nodes[i])],
                stops := s.stops[t := if s.nodes[i].running then s.stops[t].(swapped := true) else s.stops[t].(i := i + 1)])
  }

  ghost predicate StopsNodeSend(s: State, t: nat, s': State) {
    && t < |s.stops| && s.stops[t].Visiting? && s.stops[t].i < |s.nodes| && s.stops[t].swapped
    && s.nodes[s.stops[t].i].stop == N.Swapped
    && s' == s.(nodes := s.nodes[s.stops[t].i := N.StopSent(s.nodes[s.stops[t].i])],
                stops := s.stops[t := Visiting(s.stops[t].i + 1, false, s.stops[t].late)])
  }

  /** A loop moves, or a sender puts something into a queue. */
  predicate FromOutside(step: N.Step) {
    step.LoopStep? || step.PutCtrl? || step.PutSignal? || step.PutPayload? || step.PutAudio? || step.PutVideo?
  }

  ghost predicate NodeMoves(s: State, i: nat, step: N.Step, s': State) {
    && i < |s.nodes| && |s'.nodes| == |s.nodes| && FromOutside(step)
    && N.Next(s.nodes[i], step, s'.nodes[i])
    && s' == s.(nodes := s.nodes[i := s'.nodes[i]])
  }

  ghost predicate Next(s: State, step: Step, s': State) {
    match step
    case BeginStart => s.start == Uncalled && s.word == Pending && s' == s.(word := Starting, start := At(0))
    case StartNode => StartsNode(s, s')
    case MarkRunning => s.start == At(|s.nodes|) && s' == s.(word := Running, start := Done)
    case RollBack => RollsBack(s, s')
    case RollBackSend => RollsBackSend(s, s')
    case MarkRefused => s.start.Back? && s.start.i == -1 && s' == s.(word := Stopped, start := Refused(s.start.k))
    case CallStop => s.word != Stopped && s' == s.(word := Stopped, stops := s.stops + [Entered(s.start == Done)])
    case CancelContext(t) =>
      && t < |s.stops| && s.stops[t].Entered?
      && s' == s.(cancelled := true, nodes := CancelAll(s.nodes), stops := s.stops[t := Visiting(0, false, s.stops[t].late)])
    case StopNode(t) => StopsNode(s, t, s')
    case StopNodeSend(t) => StopsNodeSend(s, t, s')
    case StopReturns(t) =>
      && t < |s.stops| && s.stops[t].Visiting? && s.stops[t].i == |s.nodes|
      && s' == s.(stops := s.stops[t := Returned(s.stops[t].late)])
    case ParentCancels => s' == s.(cancelled := true, nodes := CancelAll(s.nodes))
    case Pause => s.word == Running && s' == s.(word := Paused)
    case Resume => s.word == Paused && s' == s.(word := Running)
    case NodeStep(i, step) => NodeMoves(s, i, step, s')
  }

  ghost predicate Run(ss: seq<State>, steps: seq<Step>) {
    && |ss| == |steps| + 1 && Init(ss[0])
    && forall i :: 0 <= i < |steps| ==> Next(ss[i], steps[i], ss[i + 1])
  }

  // ---------------------------------------------------------------------------------------------
  // Every node runs the node machine
  // ---------------------------------------------------------------------------------------------

  /** The step node i makes in a step of the workflow, if any. */
  function Own(s: State, step: Step, i: nat): Option<N.Step> {
    match step
    case StartNode => if s.start.At? && s.start.k == i then Some(N.StartSteps) else None
    case RollBack => if s.start.Back? && s.start.i == i then Some(N.CallStop) else None
    case RollBackSend => if s.start.Back? && s.start.i == i then Some(N.SendStop) else None
    case CancelContext(_) => Some(N.Cancel)
    case ParentCancels => Some(N.Cancel)
    case StopNode(t) => if t < |s.stops| && s.stops[t].Visiting? && s.stops[t].i == i then Some(N.CallStop) else None
    case StopNodeSend(t) => if t < |s.stops| && s.stops[t].Visiting? && s.stops[t].i == i then Some(N.SendStop) else None
    case NodeStep(j, st) => if i == j then Some(st) else None
    case _ => None
  }

  lemma OwnStep(s: State, step: Step, s': State, i: nat)
    requires Next(s, step, s') && i < |s.nodes|
    ensures |s'.nodes| == |s.nodes|
    ensures match Own(s, step, i)
      case None => s'.nodes[i] == s.nodes[i]
      case Some(st) => N.Next(s.nodes[i], st, s'.nodes[i])
  {
    hide N.StartMoves, N.StopCalled, N.StopSent, N.LoopMoves;
  }

  /** What a step of the node machine leaves alone. */
  lemma NodeFrame(n: N.State, st: N.Step, n': N.State)
    requires N.Inv(n) && N.Next(n, st, n')
    ensures N.Inv(n')
    ensures st != N.StartSteps ==> n'.start == n.start && (n'.running ==> n.running)
    ensures st != N.CallStop && st != N.SendStop ==> n'.stop == n.stop
    ensures st == N.CallStop ==> !n'.running && n'.stop == if n.running then N.Swapped else n.stop
    ensures st == N.SendStop ==> n'.stop == N.Sent
    ensures n'.cancelled == (n.cancelled || st == N.Cancel)
    ensures n.stop == N.Swapped ==> !n.running
  {
    N.StepInv(n, st, n');
  }

  // ---------------------------------------------------------------------------------------------
  // The invariant
  // ---------------------------------------------------------------------------------------------

  ghost predicate NodesOk(s: State) {
    forall i :: 0 <= i < |s.nodes| ==> N.Inv(s.nodes[i]) && s.nodes[i].cancelled == s.cancelled
  }

  /** The nodes before k are launched, those after it untouched. */
  ghost predicate Around(nodes: seq<N.State>, k: nat) {
    && k <= |nodes|
    && (forall i :: 0 <= i < k ==> nodes[i].start == N.Launched)
    && (forall i :: k < i < |nodes| ==> nodes[i].start == N.Starting)
  }

  ghost predicate Shape(s: State) {
    match s.start
    case Uncalled => forall i :: 0 <= i < |s.nodes| ==> s.nodes[i].start == N.Starting
    case At(k) => Around(s.nodes, k) && (k < |s.nodes| ==> s.nodes[k].start in {N.Starting, N.Accepted, N.Flagged})
    case Back(k, i, swapped) => Around(s.nodes, k) && k < |s.nodes| && s.nodes[k].start == N.StartFailed && -1 <= i < k
    case Refused(k) => Around(s.nodes, k) && k < |s.nodes| && s.nodes[k].start == N.StartFailed
    case Done => Around(s.nodes, |s.nodes|)
  }

  /** The nodes Start has already rolled back have their flag down. */
  ghost predicate Rolled(s: State) {
    match s.start
    case Back(k, i, _) => forall j :: 0 <= j < |s.nodes| && i < j < k ==> !s.nodes[j].running
    case Refused(k) => forall j :: 0 <= j < |s.nodes| && j < k ==> !s.nodes[j].running
    case _ => true
  }

  /** Start is between clearing the flag of node i and sending. */
  predicate StartHolds(s: State, i: nat) {
    s.start.Back? && s.start.i == i && s.start.swapped
  }

  /** So is Stop call t. */
  predicate StopHolds(s: State, t: nat, i: nat)
    requires t < |s.stops|
  {
    s.stops[t].Visiting? && s.stops[t].i == i && s.stops[t].swapped
  }

  /** A cleared flag whose message is still to come belongs to Start, unless the context is cancelled. */
  ghost predicate Owned(s: State) {
    && (forall i :: 0 <= i < |s.nodes| && s.nodes[i].stop == N.Swapped ==> s.cancelled || StartHolds(s, i))
    && (forall i :: 0 <= i < |s.nodes| && StartHolds(s, i) ==> s.nodes[i].stop == N.Swapped)
    && (forall t, i :: 0 <= t < |s.stops| && 0 <= i < |s.nodes| && StopHolds(s, t, i) ==>
         s.nodes[i].stop == N.Swapped && !StartHolds(s, i))
    && (forall t, u, i :: 0 <= t < u < |s.stops| && 0 <= i < |s.nodes| ==> !(StopHolds(s, t, i) && StopHolds(s, u, i)))
  }

  /** How many nodes Stop call t has behind it. */
  function Behind(s: State, t: nat): nat
    requires t < |s.stops|
  {
    match s.stops[t]
    case Entered(_) => 0
    case Visiting(i, _, _) => i
    case Returned(_) => |s.nodes|
  }

  ghost predicate Stopper(s: State, t: nat)
    requires t < |s.stops|
  {
    && (!s.stops[t].Entered? ==> s.cancelled)
    && Behind(s, t) <= |s.nodes|
    && (s.stops[t].late ==> s.start == Done && forall j :: 0 <= j < |s.nodes| && j < Behind(s, t) ==> !s.nodes[j].running)
  }

  ghost predicate Stoppers(s: State) {
    forall t :: 0 <= t < |s.stops| ==> Stopper(s, t)
  }

  ghost predicate Inv(s: State) {
    NodesOk(s) && Shape(s) && Rolled(s) && Owned(s) && Stoppers(s)
  }

  // ---------------------------------------------------------------------------------------------
  // Every step keeps it
  // ---------------------------------------------------------------------------------------------

  lemma NodesOkStep(s: State, step: Step, s': State)
    requires NodesOk(s) && Next(s, step, s')
    ensures NodesOk(s') && |s'.nodes| == |s.nodes| && (s.cancelled ==> s'.cancelled)
    ensures forall i :: 0 <= i < |s.nodes| ==> Moved(s, step, s', i)
  {
    hide N.Inv, N.Next;
    CancelStep(s, step, s');
    hide Next;
    forall i | 0 <= i < |s.nodes|
      ensures |s'.nodes| == |s.nodes| && Moved(s, step, s', i) && N.Inv(s'.nodes[i]) && s'.nodes[i].cancelled == s'.cancelled
    {
      OwnStep(s, step, s', i);
      SwappedIsDown(s.nodes[i]);
      if Own(s, step, i).Some? {
        NodeFrame(s.nodes[i], Own(s, step, i).value, s'.nodes[i]);
      }
    }
  }

  lemma CancelStep(s: State, step: Step, s': State)
    requires Next(s, step, s')
    ensures |s'.nodes| == |s.nodes|
    ensures s'.cancelled == (s.cancelled || step.CancelContext? || step.ParentCancels?)
    ensures forall i :: 0 <= i < |s.nodes| ==> (Own(s, step, i) == Some(N.Cancel) <==> step.CancelContext? || step.ParentCancels?)
  {
    hide N.Next, N.StartMoves, N.StopCalled, N.StopSent;
  }

  /** The fields the workflow looks at, in terms of the node's own step. */
  ghost predicate Moved(s: State, step: Step, s': State, i: nat)
    requires i < |s.nodes| == |s'.nodes|
  {
    var n, n', own := s.nodes[i], s'.nodes[i], Own(s, step, i);
    && (own != Some(N.StartSteps) ==> n'.start == n.start && (n'.running ==> n.running))
    && (own != Some(N.CallStop) && own != Some(N.SendStop) ==> n'.stop == n.stop)
    && (own == Some(N.CallStop) ==> !n'.running && n'.stop == if n.running then N.Swapped else n.stop)
    && (own == Some(N.SendStop) ==> n'.stop == N.Sent)
    && (n.stop == N.Swapped ==> !n.running)
  }

  lemma SwappedIsDown(n: N.State)
    requires N.Inv(n)
    ensures n.stop == N.Swapped ==> !n.running
  {
  }

  ghost predicate AllMoved(s: State, step: Step, s': State) {
    && |s'.nodes| == |s.nodes| && (s.cancelled ==> s'.cancelled)
    && forall i :: 0 <= i < |s.nodes| ==> Moved(s, step, s', i)
  }

  /** Only Start raises a flag or moves a node's Start on. */
  lemma Falls(s: State, step: Step, s': State, i: nat)
    requires Next(s, step, s') && AllMoved(s, step, s') && step != StartNode && i < |s.nodes|
    ensures s'.nodes[i].start == s.nodes[i].start && (s'.nodes[i].running ==> s.nodes[i].running)
  {
    hide N.Next, N.StartMoves, N.StopCalled, N.StopSent;
    assert Moved(s, step, s', i);
  }

  lemma ShapeStart(s: State, s': State)
    requires Shape(s) && StartsNode(s, s')
    ensures Shape(s')
  {
    var k := s.start.k;
    assert forall i :: 0 <= i < |s.nodes| && i != k ==> s'.nodes[i] == s.nodes[i];
  }

  /** Shape looks only at where each node's Start is. */
  lemma ShapeSame(s: State, s': State)
    requires Shape(s) && |s'.nodes| == |s.nodes|
    requires forall i :: 0 <= i < |s.nodes| ==> s'.nodes[i].start == s.nodes[i].start
    requires s'.start == s.start
      || (s.start == Uncalled && s'.start == At(0)) || (s.start == At(|s.nodes|) && s'.start == Done)
      || (s.start.Back? && s'.start.Back? && s'.start.k == s.start.k && -1 <= s'.start.i <= s.start.i)
      || (s.start.Back? && s'.start == Refused(s.start.k))
    ensures Shape(s')
  {
  }

  lemma ShapeStep(s: State, step: Step, s': State)
    requires Shape(s) && Next(s, step, s') && AllMoved(s, step, s')
    ensures Shape(s')
  {
    if step == StartNode {
      ShapeStart(s, s');
    } else {
      forall i | 0 <= i < |s.nodes| ensures s'.nodes[i].start == s.nodes[i].start {
        Falls(s, step, s', i);
      }
      hide N.Next, N.StopCalled, N.StopSent, N.StartMoves, Shape, Moved;
      ShapeSame(s, s');
    }
  }

  lemma RolledStep(s: State, step: Step, s': State)
    requires Shape(s) && Rolled(s) && Next(s, step, s') && AllMoved(s, step, s')
    ensures Rolled(s')
  {
    hide N.Next, N.StopSent, N.StartMoves, N.StopCalled, Around;
    if step != StartNode {
      forall i | 0 <= i < |s.nodes| ensures s'.nodes[i].running ==> s.nodes[i].running {
        Falls(s, step, s', i);
      }
      if step == RollBack || step == RollBackSend {
        assert Moved(s, step, s', s.start.i) && !s'.nodes[s.start.i].running;
      }
    }
  }

  /** Who holds what after a step: nothing new except where a flag was just cleared. */
  lemma HoldsStep(s: State, step: Step, s': State)
    requires Shape(s) && Next(s, step, s') && AllMoved(s, step, s')
    ensures forall i :: 0 <= i < |s.nodes| && StartHolds(s', i) ==>
      (StartHolds(s, i) && step != RollBackSend) || (step == RollBack && s.start.i == i && s.nodes[i].running)
    ensures forall i :: 0 <= i < |s.nodes| && StartHolds(s, i) ==> StartHolds(s', i) || (step == RollBackSend && s.start.i == i)
    ensures |s.stops| <= |s'.stops|
    ensures forall t, i :: 0 <= t < |s'.stops| && 0 <= i < |s.nodes| && StopHolds(s', t, i) ==>
      && t < |s.stops|
      && ((StopHolds(s, t, i) && step != StopNodeSend(t)) || (step == StopNode(t) && s.stops[t].Visiting? && s.stops[t].i == i && s.nodes[i].running))
  {
    hide N.Next, N.StartMoves, N.StopCalled, N.StopSent, Around;
  }

  /** The step by which node i sends belongs to whoever holds it. */
  lemma SendIsHolders(s: State, step: Step, s': State, i: nat)
    requires Next(s, step, s') && i < |s.nodes|
    ensures Own(s, step, i) == Some(N.SendStop) ==>
      || (step == RollBackSend && StartHolds(s, i))
      || (step.StopNodeSend? && step.t < |s.stops| && StopHolds(s, step.t, i))
    ensures Own(s, step, i) == Some(N.CallStop) ==>
      || (step == RollBack && s.start.Back? && s.start.i == i && (s.nodes[i].running ==> StartHolds(s', i)))
      || (step.StopNode? && step.t < |s.stops| && s.stops[step.t].Visiting?)
  {
    hide N.Next, N.StartMoves, N.StopCalled, N.StopSent;
  }

  lemma OwnedNode(s: State, step: Step, s': State, i: nat)
    requires Shape(s) && Owned(s) && Stoppers(s) && Next(s, step, s') && AllMoved(s, step, s') && i < |s.nodes|
    ensures s'.nodes[i].stop == N.Swapped ==> s'.cancelled || StartHolds(s', i)
    ensures StartHolds(s', i) ==> s'.nodes[i].stop == N.Swapped
  {
    HoldsStep(s, step, s');
    SendIsHolders(s, step, s', i);
    assert Moved(s, step, s', i);
    if step.StopNode? && step.t < |s.stops| {
      assert Stopper(s, step.t);
    }
    hide Next, Shape, StartHolds, StopHolds, Own;
  }

  lemma OwnedStop(s: State, step: Step, s': State, t: nat, i: nat)
    requires Shape(s) && Owned(s) && Next(s, step, s') && AllMoved(s, step, s') && i < |s.nodes|
    requires t < |s'.stops| && StopHolds(s', t, i)
    ensures s'.nodes[i].stop == N.Swapped && !StartHolds(s', i)
    ensures forall u :: 0 <= u < |s'.stops| && u != t ==> !StopHolds(s', u, i)
  {
    HoldsStep(s, step, s');
    SendIsHolders(s, step, s', i);
    assert Moved(s, step, s', i);
    NewlyHeld(s, step, i);
    hide Next, Shape, StartHolds, StopHolds, Moved;
  }

  lemma NewlyHeld(s: State, step: Step, i: nat)
    requires i < |s.nodes|
    ensures step.StopNode? && step.t < |s.stops| && s.stops[step.t].Visiting? && s.stops[step.t].i == i ==>
      Own(s, step, i) == Some(N.CallStop)
  {
  }

  lemma OwnedStep(s: State, step: Step, s': State)
    requires Shape(s) && Owned(s) && Stoppers(s) && Next(s, step, s') && AllMoved(s, step, s')
    ensures Owned(s')
  {
    forall i | 0 <= i < |s'.nodes|
      ensures s'.nodes[i].stop == N.Swapped ==> s'.cancelled || StartHolds(s', i)
      ensures StartHolds(s', i) ==> s'.nodes[i].stop == N.Swapped
    {
      OwnedNode(s, step, s', i);
    }
    forall t, i | 0 <= t < |s'.stops| && 0 <= i < |s'.nodes| && StopHolds(s', t, i)
      ensures s'.nodes[i].stop == N.Swapped && !StartHolds(s', i)
      ensures forall u :: 0 <= u < |s'.stops| && u != t ==> !StopHolds(s', u, i)
    {
      OwnedStop(s, step, s', t, i);
    }
    hide Next, Shape, StartHolds, StopHolds, AllMoved, Stoppers;
  }

  lemma StoppersStep(s: State, step: Step, s': State)
    requires Shape(s) && Stoppers(s) && Next(s, step, s') && AllMoved(s, step, s')
    ensures Stoppers(s')
  {
    hide N.Next, N.StartMoves, N.StopCalled, N.StopSent, Around;
    forall t | 0 <= t < |s'.stops| ensures Stopper(s', t) {
      if t < |s.stops| {
        assert Stopper(s, t);
        if step != StartNode {
          forall i | 0 <= i < |s.nodes| ensures s'.nodes[i].running ==> s.nodes[i].running {
            Falls(s, step, s', i);
          }
        }
        if step == StopNode(t) || step == StopNodeSend(t) {
          assert Moved(s, step, s', s.stops[t].i) && !s'.nodes[s.stops[t].i].running;
        }
      }
    }
  }

  lemma StepInv(s: State, step: Step, s': State)
    requires Inv(s) && Next(s, step, s')
    ensures Inv(s')
  {
    hide NodesOk, Shape, Rolled, Owned, Stoppers, Next, Moved;
    NodesOkStep(s, step, s');
    ShapeStep(s, step, s');
    RolledStep(s, step, s');
    OwnedStep(s, step, s');
    StoppersStep(s, step, s');
  }

  lemma InitInv(s: State)
    requires Init(s)
    ensures Inv(s)
  {
    forall i | 0 <= i < |s.nodes| ensures N.Inv(s.nodes[i]) {
      N.InitInv(s.nodes[i]);
    }
  }

  lemma {:induction false} EveryRun(ss: seq<State>, steps: seq<Step>, n: nat)
    requires Run(ss, steps) && n < |ss|
    ensures Inv(ss[n]) && |ss[n].nodes| == |ss[0].nodes|
  {
    hide Next, Inv, Init;
    if n == 0 {
      InitInv(ss[0]);
    } else {
      EveryRun(ss, steps, n - 1);
      StepInv(ss[n - 1], steps[n - 1], ss[n]);
      SameNodes(ss[n - 1], steps[n - 1], ss[n]);
    }
  }

  lemma SameNodes(s: State, step: Step, s': State)
    requires Next(s, step, s')
    ensures |s'.nodes| == |s.nodes|
  {
    CancelStep(s, step, s');
  }

  // ---------------------------------------------------------------------------------------------
  // Main results
  // ---------------------------------------------------------------------------------------------

  lemma NodeFacts(n: N.State)
    requires N.Inv(n)
    ensures n.onStops <= 1
    ensures n.start != N.Launched ==> n.loop == N.Absent && n.onStops == 0
    ensures n.start == N.Launched && !n.running && n.stop != N.Swapped ==> !N.Blocked(n)
    ensures n.cancelled ==> !N.Blocked(n)
  {
  }

  /** Once Start has returned the refusal of node k, every node before k is launched with its flag down,
      is not blocked and has had at most one OnStop, whatever Stop calls, loops and senders did in
      between; node k and those after it were never launched and never get an OnStop. */
  lemma RefusalStops(ss: seq<State>, steps: seq<Step>, n: nat, i: nat)
    requires Run(ss, steps) && n < |ss| && ss[n].start.Refused? && i < |ss[n].nodes|
    ensures ss[n].start.k < |ss[n].nodes|
    ensures i < ss[n].start.k ==>
      var node := ss[n].nodes[i];
      node.start == N.Launched && !node.running && N.Ending(node) && !N.Blocked(node) && node.onStops <= 1
    ensures i >= ss[n].start.k ==>
      var node := ss[n].nodes[i]; node.start != N.Launched && node.loop == N.Absent && node.onStops == 0
  {
    EveryRun(ss, steps, n);
    NodeFacts(ss[n].nodes[i]);
    hide N.Inv, N.Blocked, Next;
  }

  /** Once a Stop call has returned, every launched node is to end, is not blocked and has had at most one
      OnStop, nodes that a Start still under way launches later included; nodes never launched have had
      none.  When Start had returned before, all nodes are launched and all flags are down. */
  lemma StopStops(ss: seq<State>, steps: seq<Step>, n: nat, t: nat, i: nat)
    requires Run(ss, steps) && n < |ss| && t < |ss[n].stops| && ss[n].stops[t].Returned? && i < |ss[n].nodes|
    ensures ss[n].nodes[i].start == N.Launched ==> N.Ending(ss[n].nodes[i])
    ensures !N.Blocked(ss[n].nodes[i]) && ss[n].nodes[i].onStops <= 1
    ensures ss[n].nodes[i].start != N.Launched ==> ss[n].nodes[i].onStops == 0
    ensures ss[n].stops[t].late ==> ss[n].nodes[i].start == N.Launched && !ss[n].nodes[i].running
  {
    EveryRun(ss, steps, n);
    assert Stopper(ss[n], t);
    NodeFacts(ss[n].nodes[i]);
    hide N.Inv, N.Blocked, Next;
  }

  /** What the state word can be, by where Start is.  A Stop may have come in between at any time. */
  predicate Worded(s: State) {
    match s.start
    case Uncalled => s.word == Pending || s.word == Stopped
    case At(_) => s.word == Starting || s.word == Stopped
    case Back(_, _, _) => s.word == Starting || s.word == Stopped
    case Refused(_) => s.word == Stopped
    case Done => s.word == Running || s.word == Paused || s.word == Stopped
  }

  lemma WordedStep(s: State, step: Step, s': State)
    requires Worded(s) && Next(s, step, s')
    ensures Worded(s')
    ensures s.start.Refused? ==> s'.start == s.start && s'.word == Stopped
    ensures s.start == Done ==> s'.start == Done
  {
    hide N.Next, N.StartMoves, N.StopCalled, N.StopSent;
  }

  /** The state word follows Start in every run: it is Running only after every node has started, and a
      refused start leaves the workflow stopped for good. */
  lemma {:induction false} WordFollows(ss: seq<State>, steps: seq<Step>, m: nat, n: nat)
    requires Run(ss, steps) && m <= n < |ss|
    ensures Worded(ss[m]) && Worded(ss[n])
    ensures ss[m].start.Refused? ==> ss[n].start == ss[m].start && ss[n].word == Stopped
    ensures ss[n].word == Running ==> forall i :: 0 <= i < |ss[n].nodes| ==> ss[n].nodes[i].start == N.Launched
    decreases n
  {
    EveryRun(ss, steps, n);
    hide Next, NodesOk, Rolled, Owned, Stoppers;
    if m < n {
      WordFollows(ss, steps, m, n - 1);
      WordedStep(ss[n - 1], steps[n - 1], ss[n]);
    } else if m > 0 {
      WordFollows(ss, steps, m - 1, m - 1);
      WordedStep(ss[m - 1], steps[m - 1], ss[m]);
    }
  }

  /** The steps of node i's own loop. */
  function Loops(steps: seq<Step>, i: nat): nat {
    if steps == [] then 0
    else
      var last := steps[|steps| - 1];
      Loops(steps[..|steps| - 1], i) + if last.NodeStep? && last.i == i && last.step.LoopStep? then 1 else 0
  }

  /** What one step of the workflow does to a node that is to end. */
  lemma EndingNode(s: State, step: Step, s': State, i: nat)
    requires Inv(s) && Next(s, step, s') && i < |s.nodes| && N.Ending(s.nodes[i])
    ensures |s'.nodes| == |s.nodes| && N.Ending(s'.nodes[i])
    ensures N.Countdown(s'.nodes[i]) <= N.Countdown(s.nodes[i])
    ensures step.NodeStep? && step.i == i && step.step.LoopStep? && s.nodes[i].onStops == 0 ==>
      N.Countdown(s'.nodes[i]) < N.Countdown(s.nodes[i])
    ensures s.nodes[i].onStops <= s'.nodes[i].onStops
  {
    OwnStep(s, step, s', i);
    hide Next, N.Next, N.Inv, N.Countdown, N.Ending, Shape, Rolled, Owned, Stoppers;
    if Own(s, step, i).Some? {
      N.EndingStep(s.nodes[i], Own(s, step, i).value, s'.nodes[i]);
    }
  }

  lemma {:induction false} CountsDown(ss: seq<State>, steps: seq<Step>, m: nat, n: nat, i: nat)
    requires Run(ss, steps) && m <= n < |ss| && i < |ss[m].nodes| && N.Ending(ss[m].nodes[i])
    ensures i < |ss[n].nodes| && N.Ending(ss[n].nodes[i])
    ensures ss[n].nodes[i].onStops > 0 || N.Countdown(ss[n].nodes[i]) + Loops(steps[m..n], i) <= N.Countdown(ss[m].nodes[i])
    decreases n
  {
    hide Next, Inv, Init, N.Ending, N.Countdown;
    if m == n {
      assert steps[m..n] == [];
    } else {
      CountsDown(ss, steps, m, n - 1, i);
      EveryRun(ss, steps, n - 1);
      EndingNode(ss[n - 1], steps[n - 1], ss[n], i);
      assert steps[m..n][..n - 1 - m] == steps[m..n - 1];
    }
  }

  /** From the moment a node is to end, it has called OnStop, once, when its loop has made six steps of
      its own, and it can always make the next one unless it is blocked. */
  lemma OnStopWithinSix(ss: seq<State>, steps: seq<Step>, m: nat, n: nat, i: nat)
    requires Run(ss, steps) && m <= n < |ss| && i < |ss[m].nodes| && N.Ending(ss[m].nodes[i])
    ensures i < |ss[n].nodes| && N.Ending(ss[n].nodes[i]) && ss[n].nodes[i].onStops <= 1
    ensures ss[n].nodes[i].onStops == 1 || N.Countdown(ss[n].nodes[i]) + Loops(steps[m..n], i) <= N.Countdown(ss[m].nodes[i])
    ensures Loops(steps[m..n], i) >= 6 ==> ss[n].nodes[i].onStops == 1
    ensures ss[n].nodes[i].onStops == 0 && !N.Blocked(ss[n].nodes[i]) ==>
      exists low, node :: N.LoopMoves(ss[n].nodes[i], low, node)
  {
    CountsDown(ss, steps, m, n, i);
    EveryRun(ss, steps, n);
    var node := ss[n].nodes[i];
    hide Run, Shape, Rolled, Owned, Stoppers, N.LoopMoves, Loops;
    NodeFacts(node);
    if node.onStops == 0 && !N.Blocked(node) {
      N.CanMove(node);
    }
  }

  /** Nothing but the loops' own work is waited for: Start and every Stop call can always go on. */
  lemma DriversGoOn(ss: seq<State>, steps: seq<Step>, n: nat)
    requires Run(ss, steps) && n < |ss|
    ensures ss[n].start.At? || ss[n].start.Back? ==>
      exists step, s' :: step in {StartNode, MarkRunning, RollBack, RollBackSend, MarkRefused} && Next(ss[n], step, s')
    ensures forall t :: 0 <= t < |ss[n].stops| && !ss[n].stops[t].Returned? ==>
      exists step, s' :: step in {CancelContext(t), StopNode(t), StopNodeSend(t), StopReturns(t)} && Next(ss[n], step, s')
  {
    EveryRun(ss, steps, n);
    var s := ss[n];
    hide N.Inv, N.StopCalled, N.StopSent, Next;
    if s.start.At? || s.start.Back? {
      StartGoesOn(s);
    }
    forall t | 0 <= t < |s.stops| && !s.stops[t].Returned?
      ensures exists step, s' :: step in {CancelContext(t), StopNode(t), StopNodeSend(t), StopReturns(t)} && Next(s, step, s')
    {
      StopGoesOn(s, t);
    }
  }

  lemma StartGoesOn(s: State)
    requires Inv(s) && (s.start.At? || s.start.Back?)
    ensures exists step, s' :: step in {StartNode, MarkRunning, RollBack, RollBackSend, MarkRefused} && Next(s, step, s')
  {
    hide N.Inv, N.StopCalled, N.StopSent, N.Next;
    match s.start
    case At(k) =>
      if k == |s.nodes| {
        assert Next(s, MarkRunning, s.(word := Running, start := Done));
      } else {
        var n := s.nodes[k];
        var n' := match n.start
          case Starting => n.(start := N.Accepted)
          case Accepted => n.(start := N.Flagged, running := true)
          case _ => n.(start := N.Launched, loop := N.Top);
        assert N.StartMoves(n, n');
        assert Next(s, StartNode, s.(nodes := s.nodes[k := n'], start := AfterNode(k, n')));
      }
    case Back(k, i, swapped) =>
      if i == -1 {
        assert Next(s, MarkRefused, s.(word := Stopped, start := Refused(k)));
      } else if swapped {
        assert StartHolds(s, i);
        assert Next(s, RollBackSend, s.(nodes := s.nodes[i := N.StopSent(s.nodes[i])], start := Back(k, i - 1, false)));
      } else {
        assert Next(s, RollBack, s.(nodes := s.nodes[i := N.StopCalled(s.nodes[i])],
          start := if s.nodes[i].running then s.start.(swapped := true) else s.start.(i := i - 1)));
      }
  }

  lemma StopGoesOn(s: State, t: nat)
    requires Inv(s) && t < |s.stops| && !s.stops[t].Returned?
    ensures exists step, s' :: step in {CancelContext(t), StopNode(t), StopNodeSend(t), StopReturns(t)} && Next(s, step, s')
  {
    hide N.Inv, N.StopCalled, N.StopSent, N.Next;
    assert Stopper(s, t);
    match s.stops[t]
    case Entered(late) =>
      assert Next(s, CancelContext(t),
        s.(cancelled := true, nodes := CancelAll(s.nodes), stops := s.stops[t := Visiting(0, false, late)]));
    case Visiting(i, swapped, late) =>
      if i == |s.nodes| {
        assert Next(s, StopReturns(t), s.(stops := s.stops[t := Returned(late)]));
      } else if swapped {
        assert StopHolds(s, t, i);
        assert Next(s, StopNodeSend(t), s.(nodes := s.nodes[i := N.StopSent(s.nodes[i])],
          stops := s.stops[t := Visiting(i + 1, false, late)]));
      } else {
        assert Next(s, StopNode(t), s.(nodes := s.nodes[i := N.StopCalled(s.nodes[i])],
          stops := s.stops[t := if s.nodes[i].running then s.stops[t].(swapped := true) else s.stops[t].(i := i + 1)]));
      }
  }
}
