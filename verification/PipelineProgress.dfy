/** Progress: the output path never jams, the awaited bridge always ends, a cancelled loop always finishes. */
module PipelineProgress {
  import opened Pipeline
  import opened PipelineInput
  import opened PipelineOutput
  import opened PipelineStatus
  import opened Wrappers

  // ---- the output path ------------------------------------------------------------------------

  // The pump and the forwarder at work; no subscriber takes part.
  predicate DrainAction(a: Action) {
    a.PumpTake? || a.PumpPush? || a.ForwardTake? || a.ForwardSend?
  }

  // Steps the pump and the forwarder still have to take for what is queued.
  function Backlog(o: Outflow): nat {
    4 * |o.events| + (if o.pump.Pushing? then 3 else 0) + 2 * |o.forward| + (if o.hand.Some? then 1 else 0)
  }

  predicate AllDrain(acts: seq<Action>) {
    forall i :: 0 <= i < |acts| ==> DrainAction(acts[i])
  }

  function CountDrain(acts: seq<Action>): nat {
    if acts == [] then 0 else (if DrainAction(acts[0]) then 1 else 0) + CountDrain(acts[1..])
  }

  predicate NothingSent(acts: seq<Action>) {
    forall i :: 0 <= i < |acts| ==> !acts[i].DriverSent?
  }

  lemma DrainStep(c: Config, s: State, a: Action)
    requires Enabled(c, s, a) && !a.DriverSent?
    ensures Backlog(Apply(c, s, a).out) + (if DrainAction(a) then 1 else 0) <= Backlog(s.out)
  {
    if !OutputAction(a) {
      Frames(c, s, a);
    }
  }

  // However everything else is scheduled in between: until the driver's next send goes through, the
  // steps of the pump and the forwarder are bounded by the backlog.
  lemma {:induction false} DrainBounded(c: Config, s: State, acts: seq<Action>)
    requires Legal(c, s, acts) && NothingSent(acts)
    ensures CountDrain(acts) + Backlog(Run(c, s, acts).out) <= Backlog(s.out)
    decreases |acts|
  {
    if acts != [] {
      DrainStep(c, s, acts[0]);
      assert NothingSent(acts[1..]);
      DrainBounded(c, Apply(c, s, acts[0]), acts[1..]);
    }
  }

  // Something is queued and the pump is alive: the pump or the forwarder can step. Subscribers do not
  // appear in the condition, so no subscriber, however slow, can take the step away.
  lemma DrainEnabled(c: Config, s: State)
    requires PumpInv(s) && !s.out.pump.NoPump? && Backlog(s.out) > 0
    ensures exists a :: DrainAction(a) && Enabled(c, s, a)
  {
    if s.out.hand.Some? {
      assert Enabled(c, s, ForwardSend);
    } else if s.out.forward != [] {
      assert Enabled(c, s, ForwardTake);
    } else if s.out.pump.Pushing? {
      assert Enabled(c, s, PumpPush);
    } else {
      assert Enabled(c, s, PumpTake);
    }
  }

  // The pump hands over the chunk it holds, once the forwarder has made room for it.
  lemma FreePump(c: Config, s: State) returns (acts: seq<Action>)
    requires PumpInv(s) && s.out.pump.Pushing?
    ensures AllDrain(acts) && |acts| <= 3 && Legal(c, s, acts)
    ensures var t := Run(c, s, acts);
            t.out.pump.Receiving? && t.out.events == s.out.events && t.out.sending == s.out.sending
  {
    acts := [];
    if |s.out.forward| == FORWARD_QUEUE {
      if s.out.hand.Some? {
        acts := OneMore(c, s, acts, ForwardSend);
      }
      acts := OneMore(c, s, acts, ForwardTake);
    }
    acts := OneMore(c, s, acts, PumpPush);
  }

  // The pump and the forwarder alone make room in a full event queue, in at most four steps.
  lemma MakeRoom(c: Config, s: State) returns (acts: seq<Action>)
    requires PumpInv(s) && !s.out.pump.NoPump? && |s.out.events| == EVENT_QUEUE
    ensures AllDrain(acts) && |acts| <= 4 && Legal(c, s, acts)
    ensures |Run(c, s, acts).out.events| < EVENT_QUEUE && Run(c, s, acts).out.sending == s.out.sending
  {
    acts := [];
    if s.out.pump.Pushing? {
      acts := FreePump(c, s);
    }
    acts := OneMore(c, s, acts, PumpTake);
  }

  // In every reachable state in which a driver waits to send an event, whatever the subscribers have
  // done: at most four pump and forwarder steps later its send goes through.
  lemma BlockedDriverIsReleased(c: Config, before: seq<Action>) returns (acts: seq<Action>)
    requires Legal(c, Init(), before) && Run(c, Init(), before).out.sending.Some?
    ensures Legal(c, Run(c, Init(), before), acts) && AllDrain(acts) && |acts| <= 4
    ensures Enabled(c, Run(c, Run(c, Init(), before), acts), DriverSent)
  {
    OutputInvariant(c, Init(), before);
    acts := [];
    if |Run(c, Init(), before).out.events| == EVENT_QUEUE {
      acts := MakeRoom(c, Run(c, Init(), before));
    }
  }

  // The same for every schedule: from a reachable state, along any continuation in which the driver's
  // send has not gone through, whatever subscribers, clients and the loop do in between, the pump and
  // the forwarder have taken at most 1540 steps, and a driver that still waits finds its own send, or a
  // step of the pump or of the forwarder, enabled.
  lemma DeadlockFreedom(c: Config, before: seq<Action>, acts: seq<Action>)
    requires Legal(c, Init(), before) && Legal(c, Run(c, Init(), before), acts) && NothingSent(acts)
    ensures CountDrain(acts) <= 1540
    ensures var t := Run(c, Run(c, Init(), before), acts);
            t.out.sending.Some? ==> exists a :: (DrainAction(a) || a.DriverSent?) && Enabled(c, t, a)
  {
    var s := Run(c, Init(), before);
    OutputInvariant(c, Init(), before);
    DrainBounded(c, s, acts);
    OutputInvariant(c, s, acts);
    var t := Run(c, s, acts);
    if t.out.sending.Some? {
      if |t.out.events| < EVENT_QUEUE {
        assert Enabled(c, t, DriverSent);
      } else {
        DrainEnabled(c, t);
      }
    }
  }

  // ---- the bound on the steps is attained -----------------------------------------------------

  predicate AllOutputs(events: seq<DriverEvent>) {
    forall i :: 0 <= i < |events| ==> events[i].Output?
  }

  // What the pump or the forwarder does next when nothing else happens.
  function NextDrain(o: Outflow): Action {
    if o.hand.Some? then ForwardSend
    else if o.forward != [] then ForwardTake
    else if o.pump.Pushing? then PumpPush
    else PumpTake
  }

  lemma DrainsByOne(c: Config, s: State)
    requires !s.out.pump.NoPump? && AllOutputs(s.out.events) && Backlog(s.out) > 0
    ensures Enabled(c, s, NextDrain(s.out)) && DrainAction(NextDrain(s.out))
    ensures var t := Apply(c, s, NextDrain(s.out));
            && !t.out.pump.NoPump? && AllOutputs(t.out.events) && Backlog(t.out) == Backlog(s.out) - 1
  {
  }

  // Left to themselves, the pump and the forwarder take as many steps as the backlog says.
  lemma {:induction false} DrainsCompletely(c: Config, s: State) returns (acts: seq<Action>)
    requires !s.out.pump.NoPump? && AllOutputs(s.out.events)
    ensures Legal(c, s, acts) && NothingSent(acts) && CountDrain(acts) == Backlog(s.out)
    decreases Backlog(s.out)
  {
    acts := [];
    if Backlog(s.out) > 0 {
      var a := NextDrain(s.out);
      DrainsByOne(c, s);
      var more := DrainsCompletely(c, Apply(c, s, a));
      acts := [a] + more;
      assert acts[1..] == more;
    }
  }

  // One chunk goes from the driver through the pump into the forwarder's queue.
  lemma PassOne(c: Config, acts: seq<Action>) returns (more: seq<Action>)
    requires Legal(c, Init(), acts)
    requires var s := Run(c, Init(), acts);
             && s.loop.driver.Live? && s.out.pump.Receiving? && s.out.sending.None? && s.out.events == []
             && |s.out.forward| < FORWARD_QUEUE
    ensures Legal(c, Init(), more)
    ensures var s, t := Run(c, Init(), acts), Run(c, Init(), more);
            && t.loop == s.loop && t.out.pump.Receiving? && t.out.sending.None? && t.out.events == []
            && |t.out.forward| == |s.out.forward| + 1 && t.out.hand == s.out.hand
  {
    more := EmitOne(c, acts);
    more := OneMore(c, Init(), more, PumpTake);
    more := OneMore(c, Init(), more, PumpPush);
  }

  // The forwarder holds a chunk and 256 wait behind it.
  lemma FillForwarder(c: Config) returns (acts: seq<Action>)
    ensures Legal(c, Init(), acts)
    ensures var s := Run(c, Init(), acts);
            && s.loop.driver.Live? && s.out.pump.Receiving? && s.out.sending.None? && s.out.events == []
            && |s.out.forward| == 256 && s.out.hand.Some?
  {
    acts := Started(c);
    var n := 0;
    while n < 257
      invariant n <= 257 && Legal(c, Init(), acts)
      invariant var s := Run(c, Init(), acts);
                && s.loop.driver.Live? && s.out.pump.Receiving? && s.out.sending.None? && s.out.events == []
                && (if n == 0 then s.out.forward == [] && s.out.hand.None?
                    else |s.out.forward| == n - 1 && s.out.hand.Some?)
    {
      acts := PassOne(c, acts);
      if n == 0 {
        acts := OneMore(c, Init(), acts, ForwardTake);
      }
      n := n + 1;
    }
  }

  // Every queue on the way out is full, and the driver waits with one more event.
  lemma FillAll(c: Config) returns (acts: seq<Action>)
    ensures Legal(c, Init(), acts)
    ensures var o := Run(c, Init(), acts).out;
            o.sending.Some? && !o.pump.NoPump? && AllOutputs(o.events) && Backlog(o) == 1540
  {
    acts := FillForwarder(c);
    acts := EmitOne(c, acts);
    acts := OneMore(c, Init(), acts, PumpTake);
    var n := 0;
    while n < 256
      invariant n <= 256 && Legal(c, Init(), acts)
      invariant var s := Run(c, Init(), acts);
                && s.loop.driver.Live? && s.out.pump.Pushing? && s.out.sending.None?
                && |s.out.events| == n && AllOutputs(s.out.events) && |s.out.forward| == 256 && s.out.hand.Some?
    {
      acts := EmitOne(c, acts);
      n := n + 1;
    }
    acts := OneMore(c, Init(), acts, DriverEmit(Output([])));
  }

  // Some run brings about 1540 steps of the pump and the forwarder while a driver waits to send: no smaller
  // bound holds.
  lemma DrainBoundTight(c: Config) returns (before: seq<Action>, acts: seq<Action>)
    ensures Legal(c, Init(), before) && Run(c, Init(), before).out.sending.Some?
    ensures Legal(c, Run(c, Init(), before), acts) && NothingSent(acts) && CountDrain(acts) == 1540
  {
    before := FillAll(c);
    acts := DrainsCompletely(c, Run(c, Init(), before));
  }

  // ---- from the driver's exit to the end of the loop ------------------------------------------

  predicate TailAction(a: Action) {
    || a.LoopNext? || a.SleepElapsed? || a.SleepCancelled?
    || a.BridgeTake? || a.BridgeStop? || a.BridgePush? || a.BridgeFail?
  }

  function PcRank(pc: Pc): nat {
    match pc
    case Created => 10
    case Join => 9
    case AwaitBridge(_) => 8
    case AbortPump(_) => 7
    case Settle(_) => 6
    case NextDelay(_) => 5
    case Publish(_, _, _) => 4
    case Limit(_, _, _) => 3
    case Sleep(_) => 2
    case Boot => 2
    case Top => 1
    case _ => 0
  }

  function BridgeRank(b: Bridge): nat {
    match b case Selecting => 2 case Holding(_) => 1 case _ => 0
  }

  function TailRank(s: State): nat {
    PcRank(s.loop.pc) + BridgeRank(s.inp.bridge)
  }

  // No driver runs and none is about to: none was created yet, or the last one has returned.
  predicate DriverReturned(s: State) {
    !s.loop.pc.Spawned? && !s.loop.driver.Live?
  }

  predicate TailInv(s: State) {
    BridgeInv(s) && DriverReturned(s) && s.loop.cancelled
  }

  lemma TailLoopStep(c: Config, s: State)
    requires TailInv(s) && LoopReady(s)
    ensures TailInv(LoopStep(c, s)) && TailRank(LoopStep(c, s)) < TailRank(s)
    ensures LoopStep(c, s).loop.drivers == s.loop.drivers
  {
    BridgeInvLoopStep(c, s);
  }

  lemma TailStep(c: Config, s: State, a: Action)
    requires TailInv(s) && Enabled(c, s, a)
    ensures TailInv(Apply(c, s, a)) && Apply(c, s, a).loop.drivers == s.loop.drivers
    ensures if TailAction(a) then TailRank(Apply(c, s, a)) < TailRank(s) else TailRank(Apply(c, s, a)) == TailRank(s)
  {
    if a.LoopNext? {
      TailLoopStep(c, s);
    } else {
      BridgeInvStep(c, s, a);
    }
  }

  function CountTail(acts: seq<Action>): nat {
    if acts == [] then 0 else (if TailAction(acts[0]) then 1 else 0) + CountTail(acts[1..])
  }

  lemma {:induction false} TailBounded(c: Config, s: State, acts: seq<Action>)
    requires TailInv(s) && Legal(c, s, acts)
    ensures TailInv(Run(c, s, acts)) && Run(c, s, acts).loop.drivers == s.loop.drivers
    ensures CountTail(acts) + TailRank(Run(c, s, acts)) <= TailRank(s)
    decreases |acts|
  {
    if acts != [] {
      TailStep(c, s, acts[0]);
      TailBounded(c, Apply(c, s, acts[0]), acts[1..]);
    }
  }

  // Once the driver has returned, the loop is never stuck: until it is done, the loop or its bridge can
  // step (with or without cancellation, and also when the bridge was blocked on a full driver queue).
  lemma TailEnabled(c: Config, s: State)
    requires BridgeInv(s) && DriverReturned(s) && !s.loop.pc.Done?
    ensures exists a :: TailAction(a) && Enabled(c, s, a)
  {
    if s.loop.pc.Sleep? {
      assert Enabled(c, s, SleepElapsed);
    } else if LoopReady(s) {
      assert Enabled(c, s, LoopNext);
    } else if s.inp.bridge.Holding? {
      assert Enabled(c, s, BridgeFail);
    } else {
      assert Enabled(c, s, BridgeStop);
    }
  }

  // The run does not leave the tasks of one driver.
  predicate SameRun(c: Config, s: State, acts: seq<Action>)
    requires Legal(c, s, acts)
    decreases |acts|
  {
    && DriverPhase(s.loop.pc)
    && (acts == [] || SameRun(c, Apply(c, s, acts[0]), acts[1..]))
  }

  lemma WindDownLoopStep(c: Config, s: State)
    requires BridgeInv(s) && DriverReturned(s) && DriverPhase(s.loop.pc) && LoopReady(s)
    ensures TailRank(LoopStep(c, s)) < TailRank(s) && DriverReturned(LoopStep(c, s))
  {
  }

  lemma WindDownStep(c: Config, s: State, a: Action)
    requires BridgeInv(s) && DriverReturned(s) && DriverPhase(s.loop.pc) && Enabled(c, s, a)
    ensures BridgeInv(Apply(c, s, a)) && DriverReturned(Apply(c, s, a))
    ensures if TailAction(a) then TailRank(Apply(c, s, a)) < TailRank(s) else TailRank(Apply(c, s, a)) == TailRank(s)
  {
    BridgeInvStep(c, s, a);
    if a.LoopNext? {
      WindDownLoopStep(c, s);
    }
  }

  lemma {:induction false} WindDownBounded(c: Config, s: State, acts: seq<Action>)
    requires BridgeInv(s) && DriverReturned(s) && Legal(c, s, acts) && SameRun(c, s, acts)
    ensures BridgeInv(Run(c, s, acts)) && DriverReturned(Run(c, s, acts)) && DriverPhase(Run(c, s, acts).loop.pc)
    ensures CountTail(acts) + TailRank(Run(c, s, acts)) <= TailRank(s)
    decreases |acts|
  {
    if acts != [] {
      WindDownStep(c, s, acts[0]);
      WindDownBounded(c, Apply(c, s, acts[0]), acts[1..]);
    }
  }

  // After a driver has returned, cancelled or not, and even if its bridge was blocked on a full queue:
  // the loop and the bridge take at most five more steps before the pump is aborted, and until it is
  // they always have a step to take.
  lemma BridgeAlwaysEnds(c: Config, before: seq<Action>, acts: seq<Action>)
    requires Legal(c, Init(), before) && Legal(c, Run(c, Init(), before), acts)
    requires var s := Run(c, Init(), before); s.loop.driver.Exited? && SameRun(c, s, acts)
    ensures CountTail(acts) <= 5
    ensures var t := Run(c, Run(c, Init(), before), acts); exists a :: TailAction(a) && Enabled(c, t, a)
  {
    InputInvariant(c, Init(), before);
    var s := Run(c, Init(), before);
    WindDownBounded(c, s, acts);
    TailEnabled(c, Run(c, s, acts));
  }

  // Cancellation before the first driver or after a driver's return: along every continuation of every run,
  // the loop and the bridge take at most twelve more steps, create no driver, always have a step left until
  // the loop is done, and being done means that a terminal status was sent and stands in the watch channel.
  lemma CancelledLoopFinishes(c: Config, before: seq<Action>, acts: seq<Action>)
    requires Legal(c, Init(), before) && Legal(c, Run(c, Init(), before), acts)
    requires var s := Run(c, Init(), before); s.loop.cancelled && DriverReturned(s)
    ensures var s := Run(c, Init(), before);
            var t := Run(c, s, acts);
            && CountTail(acts) <= 12
            && t.loop.drivers == s.loop.drivers
            && (!t.loop.pc.Done? ==> exists a :: TailAction(a) && Enabled(c, t, a))
            && (t.loop.pc.Done? ==> t.loop.sends != [] && Terminal(t.loop.sends[|t.loop.sends| - 1])
                                    && t.loop.cell == Some(t.loop.sends[|t.loop.sends| - 1]))
  {
    InputInvariant(c, Init(), before);
    StatusInvariant(c, Init(), before);
    var s := Run(c, Init(), before);
    TailBounded(c, s, acts);
    var t := Run(c, s, acts);
    StatusInvariant(c, s, acts);
    if t.loop.pc.Done? {
      DoneIsTerminal(t.loop);
    } else {
      TailEnabled(c, t);
    }
  }

  lemma DoneIsTerminal(l: Loop)
    requires StatusInv(l) && l.pc.Done?
    ensures l.sends != [] && Terminal(l.sends[|l.sends| - 1]) && l.cell == Some(l.sends[|l.sends| - 1])
  {
  }

  // Drivers created plus the one the loop is already committed to create.
  function Committed(l: Loop): nat {
    l.drivers + if l.pc.Spawned? then 1 else 0
  }

  lemma {:induction false} CancelledCommitment(c: Config, s: State, acts: seq<Action>)
    requires s.loop.cancelled && Legal(c, s, acts)
    ensures Run(c, s, acts).loop.cancelled && Committed(Run(c, s, acts).loop) <= Committed(s.loop)
    decreases |acts|
  {
    if acts != [] {
      assert Apply(c, s, acts[0]).loop.cancelled && Committed(Apply(c, s, acts[0]).loop) <= Committed(s.loop) by {
        if !LoopAction(acts[0]) {
          Frames(c, s, acts[0]);
        }
      }
      CancelledCommitment(c, Apply(c, s, acts[0]), acts[1..]);
    }
  }

  // After cancel fires, at most one more driver is created, in any interleaving.
  lemma AtMostOneDriverAfterCancel(c: Config, before: seq<Action>, acts: seq<Action>)
    requires Legal(c, Init(), before) && Run(c, Init(), before).loop.cancelled
    requires Legal(c, Run(c, Init(), before), acts)
    ensures Creations(c, Run(c, Init(), before), acts) <= 1
    ensures !Run(c, Init(), before).loop.pc.Spawned? ==> Creations(c, Run(c, Init(), before), acts) == 0
  {
    var s := Run(c, Init(), before);
    CancelledCommitment(c, s, acts);
    CountersCount(c, s, acts);
  }
}
