/** One track of a multi-track plugin: a bounded queue with a drop strategy, filled by one pusher and
    emptied by one reader, whose items go stale when an interrupt moves the epoch on.  The steps of
    pusher, reader and interrupters interleave freely. */
module Track {

  /** The epoch is an int32 and wraps. */
  const EPOCHS: nat := 0x1_0000_0000

  datatype Strategy = DropNewest | BlockIfFull | DropOldest

  /** An item: the how-many-th pushed, the number of interrupts so far when it was stamped, and the
      epoch it was stamped with. */
  datatype Item = Item(serial: nat, era: nat, epoch: nat)

  /** The pusher: idle, about to send a stamped item, or about to make room for it. */
  datatype PushPc = Idle | Sending(item: Item, retried: bool) | Evicting(item: Item)

  /** The reader: waiting, holding a received item before and after the pause check, handling an
      item that passed, emptying the queue at the end, or gone. */
  datatype ReadPc = Waiting | Received(item: Item) | Unpaused(item: Item) | Handling(item: Item) | Draining | Gone

  /** ch is the queue; cancelled is the reader's context and expired the context of the push at hand,
      which may carry a deadline of its own.  The rest is history: the items that entered the queue,
      those taken out of it in order, the serials evicted to make room, the serials refused at the door,
      the serials whose own context ended while they were pushed, and the items handled. */
  datatype State = State(
    capacity: nat, strategy: Strategy,
    ch: seq<Item>, interrupts: nat, paused: bool, cancelled: bool, expired: bool,
    push: PushPc, read: ReadPc,
    stamped: nat, entered: seq<Item>, removed: seq<Item>, evicted: set<nat>, refused: set<nat>, ended: set<nat>, handled: seq<Item>)

  datatype Step = Stamp | Send | Evict | Receive | CheckPaused | CheckEpoch | Finish | Leave | Drain
                | Interrupt | SetPaused(paused: bool) | Cancel | Expire

  ghost predicate Init(s: State) {
    s.capacity >= 1 &&
    s == State(s.capacity, s.strategy, [], 0, false, false, false, Idle, Waiting, 0, [], [], {}, {}, {}, [])
  }

  function Stamped(s: State): State {
    s.(push := Sending(Item(s.stamped, s.interrupts, s.interrupts % EPOCHS), false), stamped := s.stamped + 1, expired := false)
  }

  function Entered(s: State, item: Item): State {
    s.(ch := s.ch + [item], entered := s.entered + [item], push := Idle)
  }

  function Refused(s: State, item: Item): State {
    s.(refused := s.refused + {item.serial}, push := Idle)
  }

  /** A context that has ended may win over a free slot, and wins over a full queue. */
  ghost predicate Sends(s: State, s': State)
    requires s.push.Sending?
  {
    var item := s.push.item;
    || (s.expired && s' == Refused(s, item))
    || (if |s.ch| < s.capacity then s' == Entered(s, item)
        else match s.strategy
          case DropNewest => s' == Refused(s, item)
          case BlockIfFull => false
          case DropOldest => s' == s.(push := Evicting(item)))
  }

  function Evicted(s: State): State
    requires s.push.Evicting?
  {
    if s.ch == [] then s.(push := Sending(s.push.item, true))
    else s.(ch := s.ch[1..], removed := s.removed + [s.ch[0]], evicted := s.evicted + {s.ch[0].serial},
            push := Sending(s.push.item, true))
  }

  /** What the stale check compares. */
  predicate Passes(s: State, item: Item) {
    item.epoch == s.interrupts % EPOCHS
  }

  ghost predicate Next(s: State, step: Step, s': State) {
    match step
    case Stamp => s.push.Idle? && s' == Stamped(s)
    case Send => s.push.Sending? && Sends(s, s')
    case Evict => s.push.Evicting? && s' == Evicted(s)
    case Receive => s.read.Waiting? && s.ch != [] &&
      s' == s.(ch := s.ch[1..], removed := s.removed + [s.ch[0]], read := Received(s.ch[0]))
    case CheckPaused => s.read.Received? &&
      s' == s.(read := if s.paused then Waiting else Unpaused(s.read.item))
    case CheckEpoch => s.read.Unpaused? &&
      s' == if Passes(s, s.read.item)
            then s.(read := Handling(s.read.item), handled := s.handled + [s.read.item])
            else s.(read := Waiting)
    case Finish => s.read.Handling? && s' == s.(read := Waiting)
    case Leave => s.read.Waiting? && s.cancelled && s' == s.(read := Draining)
    case Drain => s.read.Draining? &&
      s' == if s.ch == [] then s.(read := Gone)
            else s.(ch := s.ch[1..], removed := s.removed + [s.ch[0]])
    case Interrupt => s' == s.(interrupts := s.interrupts + 1)
    case SetPaused(b) => s' == s.(paused := b)
    case Cancel => s' == s.(cancelled := true)
    case Expire => s.push != Idle && s' == s.(expired := true, ended := s.ended + {s.push.item.serial})
  }

  ghost predicate Run(ss: seq<State>, steps: seq<Step>) {
    && |ss| == |steps| + 1 && Init(ss[0])
    && forall i :: 0 <= i < |steps| ==> Next(ss[i], steps[i], ss[i + 1])
  }

  // ---------------------------------------------------------------------------------------------
  // The invariant
  // ---------------------------------------------------------------------------------------------

  /** Later items have higher serials and no earlier era. */
  ghost predicate InOrder(items: seq<Item>) {
    forall i, j :: 0 <= i < j < |items| ==> items[i].serial < items[j].serial && items[i].era <= items[j].era
  }

  ghost predicate Below(items: seq<Item>, serial: nat, era: nat) {
    forall i :: 0 <= i < |items| ==> items[i].serial < serial && items[i].era <= era && items[i].epoch == items[i].era % EPOCHS
  }

  ghost predicate Fresh(s: State, item: Item) {
    && item.serial + 1 == s.stamped && item.era <= s.interrupts && item.epoch == item.era % EPOCHS
    && Below(s.entered, item.serial, item.era)
  }

  ghost predicate PushInv(s: State) {
    match s.push
    case Idle => true
    case Sending(item, retried) => Fresh(s, item) && (retried ==> s.strategy == DropOldest && |s.ch| < s.capacity)
    case Evicting(item) => Fresh(s, item) && s.strategy == DropOldest
  }

  /** The item the reader has received but not yet passed judgement on. */
  function Pending(s: State): seq<Item> {
    match s.read
    case Received(item) => [item]
    case Unpaused(item) => [item]
    case _ => []
  }

  /** Handled items, the one at hand and the queue continue each other in order. */
  ghost predicate ReadInv(s: State) {
    && InOrder(s.handled + Pending(s) + s.ch)
    && (forall x :: x in s.handled + Pending(s) ==> x in s.entered)
  }

  ghost predicate Inv(s: State) {
    && s.capacity >= 1 && |s.ch| <= s.capacity
    && s.removed + s.ch == s.entered
    && InOrder(s.entered) && Below(s.entered, s.stamped, s.interrupts)
    && PushInv(s) && ReadInv(s)
    && (s.strategy != DropOldest ==> s.evicted == {})
  }

  // ---------------------------------------------------------------------------------------------
  // Every step keeps it
  // ---------------------------------------------------------------------------------------------

  lemma InOrderAppend(items: seq<Item>, item: Item)
    requires InOrder(items) && forall x :: x in items ==> x.serial < item.serial && x.era <= item.era
    ensures InOrder(items + [item])
  {
  }

  lemma InOrderSkip(a: seq<Item>, item: Item, b: seq<Item>)
    requires InOrder(a + [item] + b)
    ensures InOrder(a + b)
  {
    var whole, rest := a + [item] + b, a + b;
    forall i, j | 0 <= i < j < |rest| ensures rest[i].serial < rest[j].serial && rest[i].era <= rest[j].era {
      var i', j' := if i < |a| then i else i + 1, if j < |a| then j else j + 1;
      assert rest[i] == whole[i'] && rest[j] == whole[j'];
    }
  }

  lemma StampInv(s: State)
    requires Inv(s) && s.push.Idle?
    ensures Inv(Stamped(s))
  {
  }

  lemma EnterInv(s: State)
    requires Inv(s) && s.push.Sending? && |s.ch| < s.capacity
    ensures Inv(Entered(s, s.push.item))
  {
    var item, t := s.push.item, Entered(s, s.push.item);
    assert s.removed + (s.ch + [item]) == s.entered + [item];
    forall x | x in s.entered ensures x.serial < item.serial && x.era <= item.era {
      assert Below(s.entered, item.serial, item.era);
    }
    InOrderAppend(s.entered, item);
    var order := s.handled + Pending(s) + s.ch;
    forall x | x in order ensures x in s.entered {
      assert forall y :: y in s.ch ==> y in s.removed + s.ch;
    }
    InOrderAppend(order, item);
    assert order + [item] == t.handled + Pending(t) + t.ch;
  }

  /** Taking the head out of the queue, whoever does it. */
  lemma TakeHead(s: State)
    requires Inv(s) && s.ch != []
    ensures (s.removed + [s.ch[0]]) + s.ch[1..] == s.entered
    ensures InOrder(s.handled + Pending(s) + s.ch[1..])
    ensures s.ch[0] in s.entered
  {
    assert s.ch == [s.ch[0]] + s.ch[1..];
    assert s.handled + Pending(s) + s.ch == (s.handled + Pending(s)) + [s.ch[0]] + s.ch[1..];
    InOrderSkip(s.handled + Pending(s), s.ch[0], s.ch[1..]);
    assert s.entered[|s.removed|] == s.ch[0];
    assert (s.removed + [s.ch[0]]) + s.ch[1..] == s.removed + s.ch;
  }

  lemma EvictInv(s: State)
    requires Inv(s) && s.push.Evicting?
    ensures Inv(Evicted(s))
  {
    if s.ch != [] {
      TakeHead(s);
    }
  }

  lemma ReceiveInv(s: State)
    requires Inv(s) && s.read.Waiting? && s.ch != []
    ensures Inv(s.(ch := s.ch[1..], removed := s.removed + [s.ch[0]], read := Received(s.ch[0])))
  {
    var t := s.(ch := s.ch[1..], removed := s.removed + [s.ch[0]], read := Received(s.ch[0]));
    TakeHead(s);
    assert t.handled + Pending(t) + t.ch == s.handled + Pending(s) + s.ch;
  }

  lemma DiscardInv(s: State, read: ReadPc)
    requires Inv(s) && |Pending(s)| == 1 && !read.Received? && !read.Unpaused?
    ensures Inv(s.(read := read))
  {
    InOrderSkip(s.handled, Pending(s)[0], s.ch);
    assert s.handled + Pending(s) == s.handled + [Pending(s)[0]];
    var t := s.(read := read);
    assert t.handled + Pending(t) + t.ch == s.handled + s.ch;
  }

  lemma CheckInv(s: State)
    requires Inv(s) && s.read.Unpaused?
    ensures Inv(s.(read := Handling(s.read.item), handled := s.handled + [s.read.item]))
  {
    var t := s.(read := Handling(s.read.item), handled := s.handled + [s.read.item]);
    assert t.handled + Pending(t) + t.ch == s.handled + Pending(s) + s.ch;
  }

  lemma SamePending(s: State, t: State)
    requires Inv(s) && t == s.(read := t.read, paused := t.paused, cancelled := t.cancelled, interrupts := t.interrupts,
      expired := t.expired, ended := t.ended)
    requires Pending(s) == Pending(t) && s.interrupts <= t.interrupts
    ensures Inv(t)
  {
  }

  lemma DrainInv(s: State)
    requires Inv(s) && s.read.Draining? && s.ch != []
    ensures Inv(s.(ch := s.ch[1..], removed := s.removed + [s.ch[0]]))
  {
    TakeHead(s);
  }

  lemma StepInv(s: State, step: Step, s': State)
    requires Inv(s) && Next(s, step, s')
    ensures Inv(s')
  {
    hide Inv;
    match step
    case Stamp => StampInv(s);
    case Send => SendInv(s, s');
    case Evict => EvictInv(s);
    case Receive => ReceiveInv(s);
    case CheckPaused => if s.paused { DiscardInv(s, Waiting); } else { SamePending(s, s'); }
    case CheckEpoch => if Passes(s, s.read.item) { CheckInv(s); } else { DiscardInv(s, Waiting); }
    case Drain => if s.ch == [] { SamePending(s, s'); } else { DrainInv(s); }
    case _ => SamePending(s, s');
  }

  lemma SendInv(s: State, s': State)
    requires Inv(s) && s.push.Sending? && Sends(s, s')
    ensures Inv(s')
  {
    if |s.ch| < s.capacity && s' == Entered(s, s.push.item) {
      EnterInv(s);
    }
  }

  lemma {:induction false} EveryRun(ss: seq<State>, steps: seq<Step>, n: nat)
    requires Run(ss, steps) && n < |ss|
    ensures Inv(ss[n])
  {
    hide Next, Inv;
    if n == 0 {
      InitInv(ss[0]);
    } else {
      EveryRun(ss, steps, n - 1);
      StepInv(ss[n - 1], steps[n - 1], ss[n]);
    }
  }

  lemma InitInv(s: State)
    requires Init(s)
    ensures Inv(s)
  {
  }

  // ---------------------------------------------------------------------------------------------
  // Order, and the fate of every pushed item
  // ---------------------------------------------------------------------------------------------

  /** `sub` sits inside `whole` in the same order, at the positions `at`. */
  ghost predicate Embeds(sub: seq<Item>, whole: seq<Item>, at: seq<nat>) {
    && |at| == |sub|
    && (forall i :: 0 <= i < |at| ==> at[i] < |whole| && sub[i] == whole[at[i]])
    && (forall i, j :: 0 <= i < j < |at| ==> at[i] < at[j])
  }

  lemma {:induction false} Embedding(sub: seq<Item>, whole: seq<Item>) returns (at: seq<nat>)
    requires InOrder(sub) && InOrder(whole) && forall x :: x in sub ==> x in whole
    ensures Embeds(sub, whole, at)
  {
    if sub == [] {
      at := [];
    } else {
      var n := |sub| - 1;
      var init := Embedding(sub[..n], whole);
      assert sub[n] in whole;
      var last: nat :| last < |whole| && whole[last] == sub[n];
      forall i | 0 <= i < n ensures init[i] < last {
        assert sub[..n][i] == sub[i] && sub[i].serial < sub[n].serial;
      }
      at := init + [last];
    }
  }

  /** In every reachable state the handled items are the pushed ones at increasing positions, the
      queue holds nothing older than what was handled, and its eras never decrease. */
  lemma HandledInOrder(ss: seq<State>, steps: seq<Step>, n: nat) returns (at: seq<nat>)
    requires Run(ss, steps) && n < |ss|
    ensures Embeds(ss[n].handled, ss[n].entered, at)
    ensures forall i, j :: 0 <= i < |ss[n].handled| && 0 <= j < |ss[n].ch| ==>
      ss[n].handled[i].serial < ss[n].ch[j].serial
    ensures forall i, j :: 0 <= i < j < |ss[n].ch| ==> ss[n].ch[i].era <= ss[n].ch[j].era <= ss[n].interrupts
    ensures |ss[n].ch| <= ss[n].capacity
  {
    hide Next;
    EveryRun(ss, steps, n);
    var s := ss[n];
    var order := s.handled + Pending(s) + s.ch;
    var k := |s.handled + Pending(s)|;
    assert forall i :: 0 <= i < |s.handled| ==> order[i] == s.handled[i];
    assert forall j :: 0 <= j < |s.ch| ==> order[k + j] == s.ch[j];
    assert forall j :: 0 <= j < |s.ch| ==> s.entered[|s.removed| + j] == s.ch[j];
    at := Embedding(s.handled, s.entered);
  }

  /** Where every stamped serial has gone. */
  ghost predicate Accounted(s: State) {
    && (forall k :: 0 <= k < |s.entered| ==> s.entered[k].serial !in s.refused)
    && (forall n :: n in s.refused ==> n < s.stamped)
    && (s.push != Idle ==> s.push.item.serial + 1 == s.stamped && s.push.item.serial !in s.refused)
    && (forall n {:trigger n in s.refused} :: 0 <= n < s.stamped ==>
         n in s.refused || HasSerial(s.entered, n) || (s.push != Idle && n == s.push.item.serial))
    && (forall x :: x in s.handled + Pending(s) ==> x.serial !in s.evicted)
  }

  ghost predicate HasSerial(items: seq<Item>, n: nat) {
    exists k :: 0 <= k < |items| && items[k].serial == n
  }

  /** Nothing has been turned away, so the entered items are numbered without a gap. */
  ghost predicate Gapless(s: State) {
    && s.refused == {}
    && |s.entered| + (if s.push == Idle then 0 else 1) == s.stamped
    && forall k :: 0 <= k < |s.entered| ==> s.entered[k].serial == k
  }

  ghost predicate FateInv(s: State) {
    && Inv(s) && Accounted(s)
    && (s.push != Idle && s.expired ==> s.push.item.serial in s.ended)
    && (s.strategy == DropOldest ==> s.refused <= s.ended && (s.ended == {} ==> Gapless(s)))
  }

  lemma StampFate(s: State)
    requires FateInv(s) && s.push.Idle?
    ensures FateInv(Stamped(s))
  {
    StampInv(s);
  }

  lemma EnterFate(s: State)
    requires FateInv(s) && s.push.Sending? && |s.ch| < s.capacity
    ensures FateInv(Entered(s, s.push.item))
  {
    EnterInv(s);
    var t := Entered(s, s.push.item);
    hide Inv;
    assert t.entered[|s.entered|] == s.push.item;
    forall n | 0 <= n < t.stamped ensures n in t.refused || HasSerial(t.entered, n) {
      if HasSerial(s.entered, n) {
        var k :| 0 <= k < |s.entered| && s.entered[k].serial == n;
        assert t.entered[k].serial == n;
      }
    }
  }

  lemma RefuseFate(s: State)
    requires FateInv(s) && s.push.Sending? && (s.strategy == DropOldest ==> s.expired)
    ensures FateInv(Refused(s, s.push.item))
  {
  }

  /** The head of the queue is neither handled nor at hand. */
  lemma HeadIsNew(s: State)
    requires Inv(s) && s.ch != []
    ensures forall x :: x in s.handled + Pending(s) ==> x.serial != s.ch[0].serial
  {
    var before := s.handled + Pending(s);
    var order := before + s.ch;
    assert order[|before|] == s.ch[0];
    assert forall i :: 0 <= i < |before| ==> order[i] == before[i] && order[i].serial < order[|before|].serial;
  }

  lemma EvictFate(s: State)
    requires FateInv(s) && s.push.Evicting?
    ensures FateInv(Evicted(s))
  {
    EvictInv(s);
    if s.ch != [] {
      HeadIsNew(s);
    }
  }

  /** The evicted serials are those of items no longer in the queue. */
  ghost predicate Taken(s: State) {
    forall n :: n in s.evicted ==> HasSerial(s.removed, n)
  }

  lemma ReceiveFate(s: State)
    requires FateInv(s) && Taken(s) && s.read.Waiting? && s.ch != []
    ensures FateInv(s.(ch := s.ch[1..], removed := s.removed + [s.ch[0]], read := Received(s.ch[0])))
  {
    ReceiveInv(s);
    var item := s.ch[0];
    assert item.serial !in s.evicted by {
      assert s.entered[|s.removed|] == item;
      assert forall k :: 0 <= k < |s.removed| ==> s.entered[k] == s.removed[k] && s.entered[k].serial < item.serial;
    }
  }

  lemma OtherFate(s: State, step: Step, s': State)
    requires FateInv(s) && Next(s, step, s')
    requires !step.Stamp? && !step.Send? && !step.Evict? && !step.Receive?
    ensures FateInv(s')
  {
    hide FateInv, Inv;
    FateHasInv(s);
    StepInv(s, step, s');
    assert s'.entered == s.entered && s'.refused == s.refused && s'.evicted == s.evicted
        && s'.push == s.push && s'.stamped == s.stamped && s'.strategy == s.strategy;
    assert s.ended <= s'.ended && (s'.push != Idle && s'.expired ==> s'.push.item.serial in s'.ended);
    assert forall x :: x in s'.handled + Pending(s') ==> x in s.handled + Pending(s);
    SameFate(s, s');
  }

  lemma FateHasInv(s: State)
    requires FateInv(s)
    ensures Inv(s) && (s.push != Idle && s.expired ==> s.push.item.serial in s.ended)
  {
  }

  /** Steps that push, refuse and evict nothing and bring no new item to hand. */
  lemma SameFate(s: State, s': State)
    requires FateInv(s) && Inv(s')
    requires s'.entered == s.entered && s'.refused == s.refused && s'.evicted == s.evicted
    requires s'.push == s.push && s'.stamped == s.stamped && s'.strategy == s.strategy
    requires s.ended <= s'.ended && (s'.push != Idle && s'.expired ==> s'.push.item.serial in s'.ended)
    requires forall x :: x in s'.handled + Pending(s') ==> x in s.handled + Pending(s)
    ensures FateInv(s')
  {
    hide Inv;
  }

  lemma TakenStep(s: State, step: Step, s': State)
    requires Taken(s) && Next(s, step, s')
    ensures Taken(s')
  {
    assert s.removed <= s'.removed;
    forall n | n in s'.evicted ensures HasSerial(s'.removed, n) {
      if n in s.evicted {
        var k :| 0 <= k < |s.removed| && s.removed[k].serial == n;
        assert s'.removed[k].serial == n;
      } else {
        assert s'.removed[|s.removed|].serial == n;
      }
    }
  }

  lemma FateStep(s: State, step: Step, s': State)
    requires FateInv(s) && Taken(s) && Next(s, step, s')
    ensures FateInv(s') && Taken(s')
  {
    TakenStep(s, step, s');
    hide FateInv, Taken;
    match step
    case Stamp => StampFate(s);
    case Send => SendFate(s, s');
    case Evict => EvictFate(s);
    case Receive => ReceiveFate(s);
    case _ => OtherFate(s, step, s');
  }

  lemma SendFate(s: State, s': State)
    requires FateInv(s) && s.push.Sending? && Sends(s, s')
    ensures FateInv(s')
  {
    SendInv(s, s');
    hide Inv;
    if s' == Refused(s, s.push.item) && (s.strategy == DropOldest ==> s.expired) {
      RefuseFate(s);
    } else if |s.ch| < s.capacity {
      EnterFate(s);
    }
  }

  lemma InitFate(s: State)
    requires Init(s)
    ensures FateInv(s) && Taken(s)
  {
    InitInv(s);
  }

  lemma {:induction false} EveryFate(ss: seq<State>, steps: seq<Step>, n: nat)
    requires Run(ss, steps) && n < |ss|
    ensures FateInv(ss[n]) && Taken(ss[n])
  {
    hide FateInv, Taken, Next;
    if n == 0 {
      InitFate(ss[0]);
    } else {
      EveryFate(ss, steps, n - 1);
      FateStep(ss[n - 1], steps[n - 1], ss[n]);
    }
  }

  // ---------------------------------------------------------------------------------------------
  // What the strategies promise
  // ---------------------------------------------------------------------------------------------

  /** Drop-oldest: a push is turned away only when its own context has ended.  The queue is always the
      newest stretch of what entered, so from its head on every item pushed is in it, was turned away
      for that reason, or is being pushed; and whatever was evicted is older than all of it.  With no
      context ended the queue is the newest stretch of everything pushed, without a gap. */
  lemma DropOldestKeepsNewest(ss: seq<State>, steps: seq<Step>, n: nat)
    requires Run(ss, steps) && n < |ss| && ss[n].strategy == DropOldest
    ensures ss[n].refused <= ss[n].ended
    ensures |ss[n].ch| <= |ss[n].entered| && ss[n].ch == ss[n].entered[|ss[n].entered| - |ss[n].ch|..]
    ensures forall k {:trigger HasSerial(ss[n].ch, k)} :: ss[n].ch != [] && ss[n].ch[0].serial <= k < ss[n].stamped ==>
      HasSerial(ss[n].ch, k) || k in ss[n].refused || (ss[n].push != Idle && ss[n].push.item.serial == k)
    ensures forall e, j :: e in ss[n].evicted && 0 <= j < |ss[n].ch| ==> e < ss[n].ch[j].serial
    ensures ss[n].ended == {} ==> forall j :: 0 <= j < |ss[n].ch| ==>
      ss[n].ch[j].serial == ss[n].stamped - (if ss[n].push == Idle then 0 else 1) - |ss[n].ch| + j
  {
    EveryFate(ss, steps, n);
    hide *;
    Newest(ss[n]);
    EvictedOlder(ss[n]);
    NoGap(ss[n]);
  }

  lemma Newest(s: State)
    requires FateInv(s)
    ensures s.strategy == DropOldest ==> s.refused <= s.ended
    ensures |s.ch| <= |s.entered| && s.ch == s.entered[|s.entered| - |s.ch|..]
    ensures forall k {:trigger HasSerial(s.ch, k)} :: s.ch != [] && s.ch[0].serial <= k < s.stamped ==>
      HasSerial(s.ch, k) || k in s.refused || (s.push != Idle && s.push.item.serial == k)
  {
    hide Gapless, PushInv, ReadInv, HasSerial;
    forall k | s.ch != [] && s.ch[0].serial <= k < s.stamped
      ensures HasSerial(s.ch, k) || k in s.refused || (s.push != Idle && s.push.item.serial == k)
    {
      if k !in s.refused && HasSerial(s.entered, k) {
        InTheQueue(s, k);
      }
    }
  }

  lemma EvictedOlder(s: State)
    requires FateInv(s) && Taken(s)
    ensures forall e, j :: e in s.evicted && 0 <= j < |s.ch| ==> e < s.ch[j].serial
  {
    forall e, j | e in s.evicted && 0 <= j < |s.ch| ensures e < s.ch[j].serial {
      var k :| 0 <= k < |s.removed| && s.removed[k].serial == e;
      assert s.entered[k] == s.removed[k] && s.entered[|s.removed| + j] == s.ch[j];
    }
  }

  lemma NoGap(s: State)
    requires FateInv(s)
    ensures s.strategy == DropOldest && s.ended == {} ==> forall j :: 0 <= j < |s.ch| ==>
      s.ch[j].serial == s.stamped - (if s.push == Idle then 0 else 1) - |s.ch| + j
  {
    hide PushInv, ReadInv, Accounted;
    assert |s.entered| == |s.removed| + |s.ch|;
    assert forall j :: 0 <= j < |s.ch| ==> s.ch[j] == s.entered[|s.removed| + j];
  }

  /** What entered no earlier than the head is still queued. */
  lemma InTheQueue(s: State, serial: nat)
    requires Inv(s) && s.ch != [] && s.ch[0].serial <= serial && HasSerial(s.entered, serial)
    ensures HasSerial(s.ch, serial)
  {
    var k :| 0 <= k < |s.entered| && s.entered[k].serial == serial;
    assert s.entered[|s.removed|] == s.ch[0];
    assert k >= |s.removed|;
    assert s.ch[k - |s.removed|] == s.entered[k];
  }

  /** The reader takes an item out of the queue, to handle or to drain it. */
  predicate ReaderTakes(s: State, step: Step) {
    step == Receive || (step == Drain && s.ch != [])
  }

  /** Drop-oldest decides on a full queue and evicts later: at the eviction the queue is still full
      exactly when the reader has taken nothing in between. */
  lemma EvictsFromFull(ss: seq<State>, steps: seq<Step>, n: nat, m: nat)
    requires Run(ss, steps) && n < m < |steps|
    requires steps[n] == Send && ss[n].push.Sending? && ss[n + 1].push.Evicting?
    requires steps[m] == Evict && forall t :: n < t < m ==> steps[t] != Evict
    ensures |ss[m].ch| == ss[m].capacity <==> forall t :: n < t < m ==> !ReaderTakes(ss[t], steps[t])
    ensures ss[m + 1].ch == if ss[m].ch == [] then [] else ss[m].ch[1..]
  {
    EveryRun(ss, steps, n);
    assert Next(ss[n], steps[n], ss[n + 1]);
    FullUntilTaken(ss, steps, n + 1, m);
    assert Next(ss[m], steps[m], ss[m + 1]);
  }

  lemma {:induction false} FullUntilTaken(ss: seq<State>, steps: seq<Step>, n: nat, m: nat)
    requires Run(ss, steps) && n <= m <= |steps| && ss[n].push.Evicting? && |ss[n].ch| == ss[n].capacity
    requires forall t :: n <= t < m ==> steps[t] != Evict
    ensures ss[m].push.Evicting? && |ss[m].ch| <= ss[m].capacity == ss[n].capacity
    ensures |ss[m].ch| == ss[m].capacity <==> forall t :: n <= t < m ==> !ReaderTakes(ss[t], steps[t])
    decreases m
  {
    if n < m {
      FullUntilTaken(ss, steps, n, m - 1);
      assert Next(ss[m - 1], steps[m - 1], ss[m]);
      hide Run;
      if ReaderTakes(ss[m - 1], steps[m - 1]) {
        assert |ss[m].ch| < ss[m].capacity;
      } else {
        assert ss[m].ch == ss[m - 1].ch;
      }
    }
  }

  /** It does happen that the reader makes room in between, and an item is dropped all the same. */
  lemma EvictsWithRoom() returns (ss: seq<State>, steps: seq<Step>)
    ensures Run(ss, steps) && |steps| == 8 && ss[0].capacity == 2 && ss[0].strategy == DropOldest
    ensures steps == [Stamp, Send, Stamp, Send, Stamp, Send, Receive, Evict]
    ensures |ss[7].ch| < ss[7].capacity && ss[8].evicted == {1} && ss[8].ch == []
  {
    var s0 := State(2, DropOldest, [], 0, false, false, false, Idle, Waiting, 0, [], [], {}, {}, {}, []);
    var a, b, c := Item(0, 0, 0), Item(1, 0, 0), Item(2, 0, 0);
    var s1 := s0.(push := Sending(a, false), stamped := 1);
    var s2 := s1.(push := Idle, ch := [a], entered := [a]);
    var s3 := s2.(push := Sending(b, false), stamped := 2);
    var s4 := s3.(push := Idle, ch := [a, b], entered := [a, b]);
    var s5 := s4.(push := Sending(c, false), stamped := 3);
    var s6 := s5.(push := Evicting(c));
    var s7 := s6.(ch := [b], removed := [a], read := Received(a));
    var s8 := s7.(ch := [], removed := [a, b], evicted := {1}, push := Sending(c, true));
    FillTwo(s0, a, b);
    assert Next(s4, Stamp, s5) && Next(s5, Send, s6);
    assert [a, b][1..] == [b] && Next(s6, Receive, s7);
    assert [b][1..] == [] && [a] + [b] == [a, b] && Next(s7, Evict, s8);
    hide Next;
    ss := [s0, s1, s2, s3, s4, s5, s6, s7, s8];
    steps := [Stamp, Send, Stamp, Send, Stamp, Send, Receive, Evict];
  }

  lemma FillTwo(s0: State, a: Item, b: Item)
    requires s0 == State(2, DropOldest, [], 0, false, false, false, Idle, Waiting, 0, [], [], {}, {}, {}, [])
    requires a == Item(0, 0, 0) && b == Item(1, 0, 0)
    ensures var s1 := s0.(push := Sending(a, false), stamped := 1);
      var s2 := s1.(push := Idle, ch := [a], entered := [a]);
      var s3 := s2.(push := Sending(b, false), stamped := 2);
      var s4 := s3.(push := Idle, ch := [a, b], entered := [a, b]);
      Next(s0, Stamp, s1) && Next(s1, Send, s2) && Next(s2, Stamp, s3) && Next(s3, Send, s4)
  {
  }

  /** Drop-oldest makes room at most once for a push: a retried send goes through, unless its own
      context has ended. */
  lemma OneEvictionPerPush(ss: seq<State>, steps: seq<Step>, n: nat)
    requires Run(ss, steps) && n < |steps|
    requires steps[n] == Send && ss[n].push.Sending? && ss[n].push.retried
    ensures ss[n + 1].push == Idle
    ensures !ss[n].expired ==> ss[n + 1].ch == ss[n].ch + [ss[n].push.item]
  {
    EveryRun(ss, steps, n);
    assert Next(ss[n], steps[n], ss[n + 1]);
  }

  /** Drop-newest keeps the oldest: an accepted item leaves the queue only to the reader, from the
      head, and a push is turned away only when the queue is full of older items or its own context
      has ended. */
  lemma DropNewestKeepsOldest(ss: seq<State>, steps: seq<Step>, n: nat)
    requires Run(ss, steps) && n < |steps|
    requires ss[n].strategy == DropNewest || ss[n].strategy == BlockIfFull
    ensures ss[n].evicted == {}
    ensures ss[n].ch <= ss[n + 1].ch || (steps[n] in {Receive, Drain} && ss[n].ch != [] && ss[n + 1].ch == ss[n].ch[1..])
    ensures ss[n + 1].refused != ss[n].refused ==>
      && ss[n].push.Sending? && ss[n + 1].refused == ss[n].refused + {ss[n].push.item.serial}
      && (ss[n].expired ||
          (ss[n].strategy == DropNewest && |ss[n].ch| == ss[n].capacity
           && forall j :: 0 <= j < |ss[n].ch| ==> ss[n].ch[j].serial < ss[n].push.item.serial))
  {
    EveryRun(ss, steps, n);
    assert Next(ss[n], steps[n], ss[n + 1]);
    var s := ss[n];
    assert forall j :: 0 <= j < |s.ch| ==> s.ch[j] == s.entered[|s.removed| + j];
  }

  /** Every pushed item is accounted for exactly once: turned away, entered, or still being pushed;
      and no evicted item is ever handled. */
  lemma NothingLostUnseen(ss: seq<State>, steps: seq<Step>, n: nat, serial: nat)
    requires Run(ss, steps) && n < |ss| && serial < ss[n].stamped
    ensures serial in ss[n].refused ==> !HasSerial(ss[n].entered, serial)
    ensures serial in ss[n].refused || HasSerial(ss[n].entered, serial)
      || (ss[n].push != Idle && ss[n].push.item.serial == serial)
    ensures serial in ss[n].evicted ==> HasSerial(ss[n].entered, serial) && !HasSerial(ss[n].handled, serial)
  {
    hide Next;
    EveryFate(ss, steps, n);
    var s := ss[n];
    if serial in s.evicted {
      var k :| 0 <= k < |s.removed| && s.removed[k].serial == serial;
      assert s.entered[k] == s.removed[k];
      assert forall i :: 0 <= i < |s.handled| ==> s.handled[i] in s.handled + Pending(s);
    }
  }

  // ---------------------------------------------------------------------------------------------
  // Pausing and draining
  // ---------------------------------------------------------------------------------------------

  /** At the pause check an item goes on exactly when the track is not paused; otherwise it is discarded. */
  lemma PauseCheck(ss: seq<State>, steps: seq<Step>, n: nat)
    requires Run(ss, steps) && n < |steps| && steps[n] == CheckPaused
    ensures ss[n].read.Received?
    ensures ss[n + 1].read == Unpaused(ss[n].read.item) <==> !ss[n].paused
    ensures ss[n + 1].read == Waiting <==> ss[n].paused
    ensures ss[n + 1].ch == ss[n].ch && ss[n + 1].handled == ss[n].handled
  {
    assert Next(ss[n], steps[n], ss[n + 1]);
  }

  /** While a track is paused nothing is handled, but for the one item that may already have passed the
      pause check when it was paused. */
  lemma {:induction false} PausedHandlesNothing(ss: seq<State>, steps: seq<Step>, i: nat, j: nat, item: Item)
    requires Run(ss, steps) && i <= j < |ss| && forall t :: i <= t <= j ==> ss[t].paused
    requires item in ss[j].handled
    ensures item in ss[i].handled || ss[i].read == Unpaused(item)
    decreases j
  {
    PastTheCheck(ss, steps, i, j);
    if i < j && item !in ss[j - 1].handled {
      PastTheCheck(ss, steps, i, j - 1);
      assert Next(ss[j - 1], steps[j - 1], ss[j]);
    } else if i < j {
      PausedHandlesNothing(ss, steps, i, j - 1, item);
    }
  }

  lemma {:induction false} PastTheCheck(ss: seq<State>, steps: seq<Step>, i: nat, j: nat)
    requires Run(ss, steps) && i <= j < |ss| && forall t :: i <= t <= j ==> ss[t].paused
    ensures ss[j].read.Unpaused? ==> ss[i].read == ss[j].read
    decreases j
  {
    if i < j {
      PastTheCheck(ss, steps, i, j - 1);
      assert Next(ss[j - 1], steps[j - 1], ss[j]);
    }
  }

  /** The reader takes the head of the queue, and it gives the queue up only when nothing is left in it. */
  lemma ReaderSteps(ss: seq<State>, steps: seq<Step>, n: nat)
    requires Run(ss, steps) && n < |steps|
    ensures steps[n] == Receive ==>
      ss[n].ch != [] && ss[n + 1].read == Received(ss[n].ch[0]) && ss[n + 1].ch == ss[n].ch[1..]
    ensures ss[n].read != Gone && ss[n + 1].read == Gone ==> ss[n].read == Draining && ss[n].ch == []
  {
    assert Next(ss[n], steps[n], ss[n + 1]);
    hide Run;
  }

  /** It starts giving the queue up only after its context was cancelled. */
  lemma {:induction false} DrainsWhenCancelled(ss: seq<State>, steps: seq<Step>, n: nat)
    requires Run(ss, steps) && n < |ss|
    ensures ss[n].read == Draining || ss[n].read == Gone ==> ss[n].cancelled
  {
    if n > 0 {
      DrainsWhenCancelled(ss, steps, n - 1);
      assert Next(ss[n - 1], steps[n - 1], ss[n]);
    }
  }

  // ---------------------------------------------------------------------------------------------
  // The stale check
  // ---------------------------------------------------------------------------------------------

  /** At the check, an item passes exactly when the interrupts since its stamping are a multiple of
      2^32; so, short of a wrap, exactly when there was none. */
  lemma StaleCheck(ss: seq<State>, steps: seq<Step>, n: nat)
    requires Run(ss, steps) && n < |steps| && steps[n] == CheckEpoch && ss[n].read.Unpaused?
    ensures ss[n].read.item.era <= ss[n].interrupts
    ensures ss[n + 1].read == Handling(ss[n].read.item) <==> (ss[n].interrupts - ss[n].read.item.era) % EPOCHS == 0
    ensures ss[n].interrupts - ss[n].read.item.era < EPOCHS ==>
      (ss[n + 1].read == Handling(ss[n].read.item) <==> ss[n].interrupts == ss[n].read.item.era)
    ensures ss[n + 1].handled ==
      ss[n].handled + if (ss[n].interrupts - ss[n].read.item.era) % EPOCHS == 0 then [ss[n].read.item] else []
    ensures (ss[n].interrupts - ss[n].read.item.era) % EPOCHS != 0 ==> ss[n + 1].read == Waiting
  {
    EveryRun(ss, steps, n);
    assert Next(ss[n], steps[n], ss[n + 1]);
    var s := ss[n];
    var item := s.read.item;
    assert item in s.handled + Pending(s) && item in s.entered;
    var k :| 0 <= k < |s.entered| && s.entered[k] == item;
    SameResidue(item.era, s.interrupts);
  }

  /** Items are handled at the stale check and nowhere else, and stamped with the interrupts so far. */
  lemma OnlyTheCheckHandles(ss: seq<State>, steps: seq<Step>, n: nat)
    requires Run(ss, steps) && n < |steps|
    ensures steps[n] != CheckEpoch ==> ss[n + 1].handled == ss[n].handled
    ensures steps[n] == CheckEpoch ==> ss[n].read.Unpaused?
    ensures steps[n] == Stamp ==> ss[n + 1].push.Sending? && ss[n + 1].push.item.era == ss[n].interrupts
    ensures ss[n + 1].interrupts == ss[n].interrupts + if steps[n] == Interrupt then 1 else 0
  {
    assert Next(ss[n], steps[n], ss[n + 1]);
  }

  lemma SameResidue(a: nat, b: nat)
    requires a <= b
    ensures a % EPOCHS == b % EPOCHS <==> (b - a) % EPOCHS == 0
    ensures b - a < EPOCHS ==> ((b - a) % EPOCHS == 0 <==> a == b)
  {
    assert a == EPOCHS * (a / EPOCHS) + a % EPOCHS;
    assert b == EPOCHS * (b / EPOCHS) + b % EPOCHS;
    assert b - a == EPOCHS * ((b - a) / EPOCHS) + (b - a) % EPOCHS;
  }

  /** Any number of interrupts can fall between stamping and check, so an item does pass after 2^32
      of them: the epoch wraps. */
  lemma {:induction false} InterruptsBetween(k: nat) returns (ss: seq<State>, steps: seq<Step>)
    ensures Run(ss, steps) && |steps| == 4 + k
    ensures var last := ss[4 + k]; last.read.Unpaused? && last.read.item.era == 0 && last.read.item.epoch == 0 && last.interrupts == k
    ensures k == EPOCHS ==> Passes(ss[4 + k], ss[4 + k].read.item)
  {
    if k == 0 {
      var s0 := State(1, DropNewest, [], 0, false, false, false, Idle, Waiting, 0, [], [], {}, {}, {}, []);
      var s1 := Stamped(s0);
      var s2 := Entered(s1, s1.push.item);
      var s3 := s2.(ch := s2.ch[1..], removed := s2.removed + [s2.ch[0]], read := Received(s2.ch[0]));
      var s4 := s3.(read := Unpaused(s3.read.item));
      ss, steps := [s0, s1, s2, s3, s4], [Stamp, Send, Receive, CheckPaused];
    } else {
      var ss0, steps0 := InterruptsBetween(k - 1);
      var last := ss0[3 + k];
      var next := last.(interrupts := k);
      ss, steps := ss0 + [next], steps0 + [Interrupt];
      forall i | 0 <= i < |steps| ensures Next(ss[i], steps[i], ss[i + 1]) {
        if i < |steps0| {
          assert ss[i] == ss0[i] && ss[i + 1] == ss0[i + 1] && steps[i] == steps0[i];
        }
      }
    }
  }
}
