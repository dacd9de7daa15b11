/** Input conservation: what the bridges took is what the drivers consumed plus bounded, contiguous losses. */
module PipelineInput {
  import opened Pipeline
  import opened Sequences

  // The chunk a bridge has taken and not yet handed over.
  function InHand(b: Bridge): seq<Chunk> {
    if b.Holding? then [b.chunk] else []
  }

  // consumed1 ++ lost1 ++ consumed2 ++ lost2 ...
  function Accounted(past: seq<InRun>): seq<Chunk> {
    if past == [] then [] else past[0].consumed + past[0].lost + Accounted(past[1..])
  }

  predicate Bounded(past: seq<InRun>) {
    forall i :: 0 <= i < |past| ==> |past[i].lost| <= DRIVER_QUEUE + 1
  }

  predicate DriverPhase(pc: Pc) {
    pc.Spawned? || pc.Created? || pc.Join? || pc.AwaitBridge? || pc.AbortPump?
  }

  // Control part: which task exists when, and why at most one chunk follows a lost queue.
  predicate BridgeInv(s: State) {
    var i := s.inp;
    && |i.queue| <= DRIVER_QUEUE
    && (i.bridge.NoBridge? <==> !DriverPhase(s.loop.pc))
    && (i.bridge.Ended? ==> !i.open)
    && (i.stop && DriverPhase(s.loop.pc) ==> !i.open)
    && (i.open ==> i.lost == [] && !s.loop.driver.Exited?)
    && (!i.open ==> i.queue == [])
    && (!i.bridge.Ended? ==> |i.lost| <= DRIVER_QUEUE)
    && |i.lost| <= DRIVER_QUEUE + 1
    && (s.loop.pc.Spawned? ==> s.loop.driver.NotStarted? && i.open)
    && (s.loop.pc.Created? || s.loop.pc.Join? ==> !s.loop.driver.NotStarted? && (i.open <==> s.loop.driver.Live?))
    && (s.loop.pc.AwaitBridge? || s.loop.pc.AbortPump? || !DriverPhase(s.loop.pc) ==> !i.open && !s.loop.driver.Live?)
    && (s.loop.pc.AwaitBridge? ==> i.stop)
    && (s.loop.pc.AbortPump? ==> i.bridge.Ended?)
    && (!DriverPhase(s.loop.pc) ==> i.consumed == [] && i.lost == [] && i.queue == [])
    && Bounded(i.past)
  }

  // What has been taken and not been archived with a finished driver.
  function Current(i: Inflow): seq<Chunk> {
    i.consumed + i.lost + i.queue + InHand(i.bridge)
  }

  predicate Conserved(i: Inflow) {
    && i.arrived == i.taken + i.fanIn
    && i.taken == Accounted(i.past) + Current(i)
  }

  lemma {:induction false} AccountedSnoc(past: seq<InRun>, r: InRun)
    ensures Accounted(past + [r]) == Accounted(past) + r.consumed + r.lost
  {
    if past == [] {
      assert past + [r] == [r];
      assert Accounted([r]) == r.consumed + r.lost + Accounted([]);
    } else {
      assert (past + [r])[1..] == past[1..] + [r];
      AccountedSnoc(past[1..], r);
      assert Accounted(past + [r]) == past[0].consumed + past[0].lost + (Accounted(past[1..]) + r.consumed + r.lost);
    }
  }

  lemma BridgeInvLoopStep(c: Config, s: State)
    requires BridgeInv(s) && LoopReady(s)
    ensures BridgeInv(LoopStep(c, s))
  {
  }

  lemma BridgeInvInputStep(c: Config, s: State, a: Action)
    requires BridgeInv(s) && Enabled(c, s, a) && InputAction(a) && !a.LoopNext?
    ensures BridgeInv(Apply(c, s, a))
  {
  }

  lemma BridgeInvStep(c: Config, s: State, a: Action)
    requires BridgeInv(s) && Enabled(c, s, a)
    ensures BridgeInv(Apply(c, s, a))
  {
    if a.LoopNext? {
      BridgeInvLoopStep(c, s);
    } else if InputAction(a) {
      BridgeInvInputStep(c, s, a);
    } else {
      Frames(c, s, a);
    }
  }

  lemma ConservedTake(i: Inflow)
    requires Conserved(i) && i.fanIn != [] && InHand(i.bridge) == []
    ensures Conserved(i.(fanIn := i.fanIn[1..], taken := i.taken + [i.fanIn[0]], bridge := Holding(i.fanIn[0])))
  {
    assert i.fanIn == [i.fanIn[0]] + i.fanIn[1..];
  }

  lemma ConservedRecv(i: Inflow)
    requires Conserved(i) && i.queue != [] && i.lost == []
    ensures Conserved(i.(consumed := i.consumed + [i.queue[0]], queue := i.queue[1..]))
  {
    var j := i.(consumed := i.consumed + [i.queue[0]], queue := i.queue[1..]);
    assert i.queue == [i.queue[0]] + i.queue[1..];
    assert i.consumed + i.lost + i.queue == j.consumed + j.lost + j.queue;
  }

  lemma ConservedExit(i: Inflow)
    requires Conserved(i) && i.lost == []
    ensures Conserved(i.(open := false, queue := [], lost := i.lost + i.queue))
  {
    assert i.lost + i.queue == i.queue + [];
  }

  lemma ConservedArchive(i: Inflow)
    requires Conserved(i) && i.queue == [] && InHand(i.bridge) == []
    ensures Conserved(i.(past := i.past + [InRun(i.consumed, i.lost)], consumed := [], lost := [], bridge := NoBridge))
  {
    AccountedSnoc(i.past, InRun(i.consumed, i.lost));
  }

  lemma ConservedLoopStep(c: Config, s: State)
    requires BridgeInv(s) && Conserved(s.inp) && LoopReady(s)
    ensures Conserved(LoopStep(c, s).inp)
  {
    if s.loop.pc.AbortPump? {
      ConservedArchive(s.inp);
    }
  }

  lemma ConservedStep(c: Config, s: State, a: Action)
    requires BridgeInv(s) && Conserved(s.inp) && Enabled(c, s, a)
    ensures Conserved(Apply(c, s, a).inp)
  {
    if a.LoopNext? {
      ConservedLoopStep(c, s);
    } else if a.BridgeTake? {
      ConservedTake(s.inp);
    } else if a.DriverRecv? {
      ConservedRecv(s.inp);
    } else if a.DriverExit? {
      ConservedExit(s.inp);
    } else if !InputAction(a) {
      Frames(c, s, a);
    }
  }

  lemma {:induction false} InputInvariant(c: Config, s: State, acts: seq<Action>)
    requires BridgeInv(s) && Conserved(s.inp) && Legal(c, s, acts)
    ensures BridgeInv(Run(c, s, acts)) && Conserved(Run(c, s, acts).inp)
    decreases |acts|
  {
    if acts != [] {
      BridgeInvStep(c, s, acts[0]);
      ConservedStep(c, s, acts[0]);
      InputInvariant(c, Apply(c, s, acts[0]), acts[1..]);
    }
  }

  // The chunks clients sent, in the order the fan-in queue accepted them.
  function Sent(acts: seq<Action>): seq<Chunk> {
    if acts == [] then [] else (if acts[0].ClientSend? then [acts[0].chunk] else []) + Sent(acts[1..])
  }

  lemma {:induction false} ArrivedIsSent(c: Config, s: State, acts: seq<Action>)
    requires Legal(c, s, acts)
    ensures Run(c, s, acts).inp.arrived == s.inp.arrived + Sent(acts)
    decreases |acts|
  {
    if acts != [] {
      var t := Apply(c, s, acts[0]);
      assert t.inp.arrived == s.inp.arrived + if acts[0].ClientSend? then [acts[0].chunk] else [];
      ArrivedIsSent(c, t, acts[1..]);
    }
  }

  // In every interleaving, over any number of reconnects: what clients sent is what finished drivers
  // consumed and lost, run by run, then the current run, then what still waits (and is dropped with the
  // queue if the loop is done). Nothing is reordered, duplicated or invented, and one driver loses at most
  // a full queue plus the chunk in its bridge's hand.
  lemma InputConservation(c: Config, acts: seq<Action>)
    requires Legal(c, Init(), acts)
    ensures var i := Run(c, Init(), acts).inp;
            && Sent(acts) == i.taken + i.fanIn
            && i.taken == Accounted(i.past) + Current(i)
            && (forall k :: 0 <= k < |i.past| ==> |i.past[k].lost| <= 257)
            && |i.lost| + |i.queue| + |InHand(i.bridge)| <= 257
            && (Run(c, Init(), acts).loop.pc.Done? ==> i.taken == Accounted(i.past))
  {
    InputInvariant(c, Init(), acts);
    ArrivedIsSent(c, Init(), acts);
  }

  // ---- nothing is held back -------------------------------------------------------------------

  // The driver has received what lay in its queue, the bridge's hand and the fan-in queue, in that order.
  predicate TakenIn(s: State, t: State) {
    && t.loop == s.loop && t.inp.open && t.inp.bridge.Selecting? && t.inp.queue == [] && t.inp.fanIn == []
    && t.inp.lost == s.inp.lost && t.inp.past == s.inp.past
    && t.inp.consumed == s.inp.consumed + s.inp.queue + InHand(s.inp.bridge) + s.inp.fanIn
  }

  predicate Flowing(s: State) {
    s.loop.driver.Live? && s.inp.open && (s.inp.bridge.Selecting? || s.inp.bridge.Holding?)
    && |s.inp.queue| <= DRIVER_QUEUE
  }

  // What is to be done next when the driver reads whatever it can.
  function NextIntake(i: Inflow): Action {
    if i.queue != [] then DriverRecv else if i.bridge.Holding? then BridgePush else BridgeTake
  }

  function Upstream(i: Inflow): seq<Chunk> {
    i.consumed + i.queue + InHand(i.bridge) + i.fanIn
  }

  function IntakeWork(i: Inflow): nat {
    3 * |i.fanIn| + 2 * |InHand(i.bridge)| + |i.queue|
  }

  lemma IntakeStep(c: Config, s: State)
    requires Flowing(s) && IntakeWork(s.inp) > 0
    ensures Enabled(c, s, NextIntake(s.inp))
    ensures var t := Apply(c, s, NextIntake(s.inp));
            && Flowing(t) && t.loop == s.loop && t.inp.lost == s.inp.lost && t.inp.past == s.inp.past
            && Upstream(t.inp) == Upstream(s.inp) && IntakeWork(t.inp) < IntakeWork(s.inp)
  {
    var i := s.inp;
    if i.queue != [] {
      assert i.queue == [i.queue[0]] + i.queue[1..];
      assert i.consumed + [i.queue[0]] + i.queue[1..] == i.consumed + i.queue;
    } else if i.bridge.Holding? {
      assert [] + [i.bridge.chunk] + [] == [i.bridge.chunk];
    } else {
      assert i.fanIn == [i.fanIn[0]] + i.fanIn[1..];
    }
  }

  lemma {:induction false} IntakeAll(c: Config, s: State) returns (acts: seq<Action>)
    requires Flowing(s)
    ensures Legal(c, s, acts) && TakenIn(s, Run(c, s, acts))
    decreases IntakeWork(s.inp)
  {
    acts := [];
    if IntakeWork(s.inp) > 0 {
      var a := NextIntake(s.inp);
      IntakeStep(c, s);
      var more := IntakeAll(c, Apply(c, s, a));
      acts := [a] + more;
      assert acts[1..] == more;
    }
  }

  // In every reachable state with a running driver the bridge works, and bridge and driver alone can bring
  // everything sent so far to the driver, in order and without loss.
  lemma InputGetsThrough(c: Config, before: seq<Action>) returns (acts: seq<Action>)
    requires Legal(c, Init(), before)
    requires var s := Run(c, Init(), before); s.loop.driver.Live?
    ensures Legal(c, Run(c, Init(), before), acts)
    ensures TakenIn(Run(c, Init(), before), Run(c, Run(c, Init(), before), acts))
  {
    InputInvariant(c, Init(), before);
    acts := IntakeAll(c, Run(c, Init(), before));
  }

  // Clients can fill the fan-in queue, whatever its capacity.
  lemma {:induction false} FanInFills(c: Config, n: nat) returns (acts: seq<Action>)
    requires n <= c.fanInCapacity
    ensures Legal(c, Init(), acts) && |Run(c, Init(), acts).inp.fanIn| == n && Run(c, Init(), acts).loop == Init().loop
    decreases n
  {
    acts := [];
    if n > 0 {
      acts := FanInFills(c, n - 1);
      acts := OneMore(c, Init(), acts, ClientSend([]));
    }
  }

  // ---- the bound is attained ------------------------------------------------------------------

  // The bridge moves `n` more chunks into the driver's queue while the driver reads none.
  lemma {:induction false} FillQueue(c: Config, acts: seq<Action>, n: nat) returns (more: seq<Action>)
    requires ValidConfig(c) && Legal(c, Init(), acts)
    requires var s := Run(c, Init(), acts);
             s.loop.pc.Join? && s.loop.driver.Live? && s.inp.open && s.inp.bridge.Selecting? && s.inp.fanIn == []
             && s.inp.past == [] && s.inp.lost == [] && |s.inp.queue| + n <= DRIVER_QUEUE
    ensures Legal(c, Init(), more)
    ensures var s, t := Run(c, Init(), acts), Run(c, Init(), more);
            t.loop == s.loop && t.inp.open && t.inp.bridge.Selecting? && t.inp.fanIn == []
            && t.inp.past == [] && t.inp.lost == [] && |t.inp.queue| == |s.inp.queue| + n
    decreases n
  {
    more := acts;
    if n > 0 {
      more := OneMore(c, Init(), more, ClientSend([]));
      more := OneMore(c, Init(), more, BridgeTake);
      more := OneMore(c, Init(), more, BridgePush);
      more := FillQueue(c, more, n - 1);
    }
  }

  // The driver exits while the bridge holds one more chunk; the loop then settles the run.
  lemma ExitWhileHolding(c: Config, acts: seq<Action>) returns (more: seq<Action>)
    requires Legal(c, Init(), acts)
    requires var s := Run(c, Init(), acts);
             s.loop.pc.Join? && s.loop.driver.Live? && s.inp.bridge.Holding? && s.inp.past == [] && s.inp.lost == []
    ensures Legal(c, Init(), more)
    ensures var s, t := Run(c, Init(), acts), Run(c, Init(), more);
            |t.inp.past| == 1 && |t.inp.past[0].lost| == |s.inp.queue| + 1
  {
    more := OneMore(c, Init(), acts, DriverExit(Clean));
    more := OneMore(c, Init(), more, BridgeFail);
    more := OneMore(c, Init(), more, LoopNext);
    more := OneMore(c, Init(), more, LoopNext);
    more := OneMore(c, Init(), more, LoopNext);
  }

  // Some run loses exactly 257 chunks with its first driver: no smaller bound holds.
  lemma LossBoundTight(c: Config) returns (acts: seq<Action>)
    requires ValidConfig(c)
    ensures Legal(c, Init(), acts)
    ensures var i := Run(c, Init(), acts).inp; |i.past| == 1 && |i.past[0].lost| == 257
  {
    acts := Started(c);
    acts := FillQueue(c, acts, DRIVER_QUEUE);
    acts := OneMore(c, Init(), acts, ClientSend([]));
    acts := OneMore(c, Init(), acts, BridgeTake);
    acts := ExitWhileHolding(c, acts);
  }

  // The run in which the loop has just started its first driver and nothing else has happened.
  lemma Started(c: Config) returns (acts: seq<Action>)
    ensures Legal(c, Init(), acts)
    ensures var s := Run(c, Init(), acts);
            && s.loop.pc.Join? && s.loop.driver.Live? && s.inp.open && s.inp.bridge.Selecting?
            && s.inp.fanIn == [] && s.inp.past == [] && s.inp.lost == [] && s.inp.queue == []
            && s.out.pump.Receiving? && s.out.sending.None? && s.out.events == [] && s.out.emitted == []
            && s.out.pushed == [] && s.out.past == [] && s.out.forward == [] && s.out.hand.None?
  {
    acts := OneMore(c, Init(), [], LoopNext);
    acts := OneMore(c, Init(), acts, LoopNext);
    acts := OneMore(c, Init(), acts, LoopNext);
    acts := OneMore(c, Init(), acts, LoopNext);
  }
}
