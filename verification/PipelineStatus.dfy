/** The retry loop over whole runs: its status language, its retry bound, the attempt numbers it publishes. */
module PipelineStatus {
  import opened Pipeline
  import opened PipelineInput
  import opened Sequences
  import opened Wrappers
  import Backoff

  // (Running Reconnecting)*
  predicate Cycles(w: seq<Status>) {
    && |w| % 2 == 0
    && forall i :: 0 <= i < |w| ==> if i % 2 == 0 then w[i] == Running else w[i].Reconnecting?
  }

  predicate Terminal(st: Status) {
    st.Stopped? || st.Failed?
  }

  // Starting (Running Reconnecting)* then Stopped, Running Stopped, Running Failed, or a bare Failed that
  // only follows a Reconnecting.
  predicate FinishedWord(w: seq<Status>) {
    && |w| >= 2
    && w[0] == Starting
    && Terminal(w[|w| - 1])
    && var mid := w[1..|w| - 1];
       || (Cycles(mid) && (w[|w| - 1].Failed? ==> mid != []))
       || (mid != [] && Cycles(mid[..|mid| - 1]) && mid[|mid| - 1] == Running)
  }

  // Words sent so far: Starting (Running Reconnecting)*, and the same followed by Running.
  predicate Resting(w: seq<Status>) {
    |w| > 0 && w[0] == Starting && Cycles(w[1..])
  }

  predicate UpToRunning(w: seq<Status>) {
    |w| > 1 && w[0] == Starting && Cycles(w[1..|w| - 1]) && w[|w| - 1] == Running
  }

  // What the loop has sent when it stands at `pc`.
  predicate StatusInv(l: Loop) {
    if l.pc.Boot? then l.sends == []
    else if l.pc.Top? || l.pc.Spawned? || l.pc.Created? then Resting(l.sends)
    else if l.pc.Limit? || l.pc.Sleep? then Resting(l.sends) && |l.sends| > 1
    else if l.pc.Done? then FinishedWord(l.sends) && !l.ticking && l.cell == Some(l.sends[|l.sends| - 1])
    else UpToRunning(l.sends)
  }

  lemma WordSnoc(w: seq<Status>, st: Status)
    ensures (w + [st])[..|w|] == w
    ensures |w| > 0 ==> (w + [st])[1..] == w[1..] + [st] && (w + [st])[1..|w|] == w[1..]
    ensures |w| > 1 ==> w[1..] == w[1..|w| - 1] + [w[|w| - 1]]
    ensures |w| > 1 ==> w[1..][..|w| - 2] == w[1..|w| - 1]
  {
  }

  lemma StatusFinish(l: Loop, st: Status)
    requires Terminal(st)
    requires (Resting(l.sends) && (st.Failed? ==> |l.sends| > 1)) || UpToRunning(l.sends)
    ensures StatusInv(Finish(l, st))
  {
    WordSnoc(l.sends, st);
  }

  lemma StatusPublish(l: Loop)
    requires StatusInv(l) && l.pc.Publish?
    ensures Resting(l.sends + [Reconnecting(l.pc.attempt)])
  {
    var w := l.sends;
    WordSnoc(w, Reconnecting(l.pc.attempt));
    assert (w + [Reconnecting(l.pc.attempt)])[1..] == w[1..|w| - 1] + [Running, Reconnecting(l.pc.attempt)];
  }

  lemma StatusRunning(w: seq<Status>)
    requires Resting(w)
    ensures UpToRunning(w + [Running])
  {
    WordSnoc(w, Running);
  }

  lemma StatusSettle(c: Config, l: Loop)
    requires StatusInv(l) && l.pc.Settle?
    ensures StatusInv(SettleLoop(c, l, l.pc.result))
  {
    if l.pc.result.Fatal? {
      StatusFinish(l, Failed(FatalError(l.pc.result.reason)));
    } else {
      StatusFinish(l, Stopped);
    }
  }

  lemma StatusLoopStep(c: Config, l: Loop)
    requires StatusInv(l) && LoopCanStep(l)
    ensures StatusInv(LoopAfter(c, l))
  {
    if l.pc.Boot? {
      assert [Starting][1..] == [];
    } else if l.pc.Top? {
      StatusFinish(l, Stopped);
    } else if l.pc.Created? {
      StatusRunning(l.sends);
    } else if l.pc.Settle? {
      StatusSettle(c, l);
    } else if l.pc.Publish? {
      StatusPublish(l);
    } else if l.pc.Limit? {
      StatusFinish(l, Failed(RetriesExceeded(l.pc.why)));
    }
  }

  lemma StatusStep(c: Config, s: State, a: Action)
    requires StatusInv(s.loop) && Enabled(c, s, a)
    ensures StatusInv(Apply(c, s, a).loop)
  {
    if a.LoopNext? {
      StatusLoopStep(c, s.loop);
    } else if a.SleepCancelled? {
      StatusFinish(s.loop, Stopped);
    } else if !LoopAction(a) {
      Frames(c, s, a);
    }
  }

  lemma {:induction false} StatusInvariant(c: Config, s: State, acts: seq<Action>)
    requires StatusInv(s.loop) && Legal(c, s, acts)
    ensures StatusInv(Run(c, s, acts).loop)
    decreases |acts|
  {
    if acts != [] {
      StatusStep(c, s, acts[0]);
      StatusInvariant(c, Apply(c, s, acts[0]), acts[1..]);
    }
  }

  lemma {:induction false} NothingAfterDone(c: Config, s: State, acts: seq<Action>)
    requires s.loop.pc.Done? && Legal(c, s, acts)
    ensures Run(c, s, acts).loop.pc.Done? && Run(c, s, acts).loop.sends == s.loop.sends
    ensures Run(c, s, acts).inp.arrived == s.inp.arrived
    decreases |acts|
  {
    if acts != [] {
      var t := Apply(c, s, acts[0]);
      assert t.loop.pc.Done? && t.loop.sends == s.loop.sends && t.inp.arrived == s.inp.arrived;
      NothingAfterDone(c, Apply(c, s, acts[0]), acts[1..]);
    }
  }

  // Every run that finishes has sent a word of the language, sends nothing more whatever happens next,
  // and leaves its terminal status in the watch channel, the aborted ticker notwithstanding.
  lemma StatusLanguage(c: Config, acts: seq<Action>, more: seq<Action>)
    requires Legal(c, Init(), acts) && Run(c, Init(), acts).loop.pc.Done?
    requires Legal(c, Run(c, Init(), acts), more)
    ensures var w := Run(c, Init(), acts).loop.sends;
            var l := Run(c, Run(c, Init(), acts), more).loop;
            FinishedWord(w) && l.sends == w && l.cell == Some(w[|w| - 1])
  {
    StatusInvariant(c, Init(), acts);
    NothingAfterDone(c, Run(c, Init(), acts), more);
    StatusInvariant(c, Run(c, Init(), acts), more);
  }

  // ---- the status cell ------------------------------------------------------------------------

  // Has the ticker published Running since the loop last sent a status? `before` answers for the start.
  predicate TickedSince(c: Config, s: State, acts: seq<Action>, before: bool)
    requires Legal(c, s, acts)
    decreases |acts|
  {
    if acts == [] then before
    else
      var t := Apply(c, s, acts[0]);
      TickedSince(c, t, acts[1..], if t.loop.sends != s.loop.sends then false else before || acts[0].Tick?)
  }

  // What the cell holds: nothing before the first send, then the loop's last word or the ticker's Running.
  predicate CellInv(l: Loop, ticked: bool) {
    if l.sends == [] then !l.ticking && l.pc.Boot?
    else l.cell == Some(if ticked then Running else l.sends[|l.sends| - 1])
  }

  lemma CellLoopStep(c: Config, l: Loop, ticked: bool)
    requires CellInv(l, ticked) && LoopCanStep(l)
    ensures var m := LoopAfter(c, l); CellInv(m, if m.sends != l.sends then false else ticked)
  {
  }

  lemma CellStep(c: Config, s: State, a: Action, ticked: bool)
    requires CellInv(s.loop, ticked) && Enabled(c, s, a)
    ensures var t := Apply(c, s, a);
            CellInv(t.loop, if t.loop.sends != s.loop.sends then false else ticked || a.Tick?)
  {
    if a.LoopNext? {
      CellLoopStep(c, s.loop, ticked);
    } else if !LoopAction(a) {
      Frames(c, s, a);
    }
  }

  lemma {:induction false} CellInvariant(c: Config, s: State, acts: seq<Action>, ticked: bool)
    requires CellInv(s.loop, ticked) && Legal(c, s, acts)
    ensures CellInv(Run(c, s, acts).loop, TickedSince(c, s, acts, ticked))
    decreases |acts|
  {
    if acts != [] {
      var t := Apply(c, s, acts[0]);
      CellStep(c, s, acts[0], ticked);
      CellInvariant(c, t, acts[1..], if t.loop.sends != s.loop.sends then false else ticked || acts[0].Tick?);
    }
  }

  // Exactly when a reader of the watch channel sees the loop's last word: when that word is Running, or
  // the ticker has not ticked since.
  lemma CellShowsLastSendIff(c: Config, acts: seq<Action>)
    requires Legal(c, Init(), acts) && Run(c, Init(), acts).loop.sends != []
    ensures var l := Run(c, Init(), acts).loop;
            var last := l.sends[|l.sends| - 1];
            l.cell == Some(last) <==> last == Running || !TickedSince(c, Init(), acts, false)
  {
    CellInvariant(c, Init(), acts, false);
  }

  lemma {:induction false} TickerStaysStopped(c: Config, s: State, acts: seq<Action>)
    requires !s.loop.ticking && !s.loop.pc.Boot? && Legal(c, s, acts)
    ensures !Run(c, s, acts).loop.ticking && Tick !in acts
    decreases |acts|
  {
    if acts != [] {
      var t := Apply(c, s, acts[0]);
      assert !t.loop.ticking && !t.loop.pc.Boot? && acts[0] != Tick;
      TickerStaysStopped(c, t, acts[1..]);
    }
  }

  // Once the ticker has seen the cancellation, or the loop is done, it never publishes again.
  lemma NoTickAfterTheStop(c: Config, before: seq<Action>, acts: seq<Action>, stop: Action)
    requires Legal(c, Init(), before) && Enabled(c, Run(c, Init(), before), stop)
    requires stop.TickerStop? || Run(c, Init(), before).loop.pc.Done?
    requires Legal(c, Apply(c, Run(c, Init(), before), stop), acts)
    ensures Tick !in acts
  {
    var s := Run(c, Init(), before);
    CellInvariant(c, Init(), before, false);
    StatusInvariant(c, Init(), before);
    TickerStaysStopped(c, Apply(c, s, stop), acts);
  }

  // Until then it runs: it can always tick, unless the loop has not begun, is cancelled, or is done.
  lemma {:induction false} TickerRuns(c: Config, s: State, acts: seq<Action>)
    requires s.loop.ticking || s.loop.pc.Boot? || s.loop.cancelled || s.loop.pc.Done?
    requires Legal(c, s, acts)
    ensures var l := Run(c, s, acts).loop;
            Enabled(c, Run(c, s, acts), Tick) || l.pc.Boot? || l.cancelled || l.pc.Done?
    decreases |acts|
  {
    if acts != [] {
      var t := Apply(c, s, acts[0]);
      assert t.loop.ticking || t.loop.pc.Boot? || t.loop.cancelled || t.loop.pc.Done?;
      TickerRuns(c, t, acts[1..]);
    }
  }

  // ---- how the loop ends ----------------------------------------------------------------------

  // What the last two words of a finished loop say, and what they say it of.
  predicate EndsFor(c: Config, l: Loop)
    requires |l.sends| >= 2
  {
    var last := l.sends[|l.sends| - 1];
    match l.sends[|l.sends| - 2]
    case Starting => last == Stopped && l.cancelled && l.drivers == 0
    case Running =>
      (match l.driver
       case Exited(Clean) => last == Stopped
       case Exited(Fatal(reason)) => last == Failed(FatalError(reason))
       case Exited(IoLost(_)) => last == Stopped && !c.autoReconnect
       case _ => false)
    case Reconnecting(attempt) =>
      && l.driver.Exited? && l.driver.result.IoLost? && c.autoReconnect
      && if c.maxAttempts.Some? && attempt > c.maxAttempts.value then
           last == Failed(RetriesExceeded(l.driver.result.reason))
         else last == Stopped && l.cancelled
    case _ => false
  }

  // A lost connection was announced, and not as the last.
  predicate Announced(c: Config, l: Loop) {
    && l.driver.Exited? && l.driver.result.IoLost? && c.autoReconnect
    && l.sends != [] && l.sends[|l.sends| - 1].Reconnecting?
    && (c.maxAttempts.Some? ==> l.sends[|l.sends| - 1].attempt <= c.maxAttempts.value)
  }

  // What has led the loop to where it stands.
  predicate CauseInv(c: Config, l: Loop) {
    match l.pc
    case Boot => l.sends == [] && l.driver.NotStarted? && l.drivers == 0
    case Top => (l.sends == [Starting] && l.driver.NotStarted? && l.drivers == 0) || Announced(c, l)
    case Spawned => l.driver.NotStarted? && l.sends != []
    case Created => l.sends != []
    case Join => RunningLast(l)
    case AwaitBridge(res) => RunningLast(l) && l.driver == Exited(res)
    case AbortPump(res) => RunningLast(l) && l.driver == Exited(res)
    case Settle(res) => RunningLast(l) && l.driver == Exited(res)
    case NextDelay(why) => RunningLast(l) && l.driver == Exited(IoLost(why)) && c.autoReconnect
    case Publish(_, _, why) => RunningLast(l) && l.driver == Exited(IoLost(why)) && c.autoReconnect
    case Limit(_, attempt, why) =>
      && l.driver == Exited(IoLost(why)) && c.autoReconnect
      && l.sends != [] && l.sends[|l.sends| - 1] == Reconnecting(attempt)
    case Sleep(_) => Announced(c, l)
    case Done => |l.sends| >= 2 && EndsFor(c, l)
  }

  predicate RunningLast(l: Loop) {
    l.sends != [] && l.sends[|l.sends| - 1] == Running
  }

  lemma CauseAtTop(c: Config, l: Loop)
    requires CauseInv(c, l) && l.pc.Top?
    ensures CauseInv(c, LoopAfter(c, l))
  {
  }

  lemma CauseAtSettle(c: Config, l: Loop)
    requires CauseInv(c, l) && l.pc.Settle?
    ensures CauseInv(c, SettleLoop(c, l, l.pc.result))
  {
    var last := if l.pc.result.Fatal? then Failed(FatalError(l.pc.result.reason)) else Stopped;
    if !l.pc.result.IoLost? || !c.autoReconnect {
      assert EndsFor(c, Finish(l, last));
    }
  }

  lemma CauseAtLimit(c: Config, l: Loop)
    requires CauseInv(c, l) && l.pc.Limit?
    ensures CauseInv(c, LoopAfter(c, l))
  {
  }

  lemma CauseElsewhere(c: Config, l: Loop)
    requires CauseInv(c, l) && LoopCanStep(l) && !l.pc.Top? && !l.pc.Settle? && !l.pc.Limit?
    ensures CauseInv(c, LoopAfter(c, l))
  {
  }

  lemma CauseLoopStep(c: Config, l: Loop)
    requires CauseInv(c, l) && LoopCanStep(l)
    ensures CauseInv(c, LoopAfter(c, l))
  {
    if l.pc.Top? {
      CauseAtTop(c, l);
    } else if l.pc.Settle? {
      CauseAtSettle(c, l);
    } else if l.pc.Limit? {
      CauseAtLimit(c, l);
    } else {
      CauseElsewhere(c, l);
    }
  }

  lemma CauseSleepStep(c: Config, l: Loop)
    requires CauseInv(c, l) && l.pc.Sleep?
    ensures CauseInv(c, l.(pc := Top)) && (l.cancelled ==> CauseInv(c, Finish(l, Stopped)))
  {
  }

  lemma CauseStep(c: Config, s: State, a: Action)
    requires CauseInv(c, s.loop) && Enabled(c, s, a)
    ensures CauseInv(c, Apply(c, s, a).loop)
  {
    if a.LoopNext? {
      CauseLoopStep(c, s.loop);
    } else if a.SleepElapsed? || a.SleepCancelled? {
      CauseSleepStep(c, s.loop);
    } else if a.DriverExit? {
      assert s.loop.driver.Live?;
    } else if !LoopAction(a) {
      Frames(c, s, a);
    }
  }

  lemma {:induction false} CauseInvariant(c: Config, s: State, acts: seq<Action>)
    requires CauseInv(c, s.loop) && Legal(c, s, acts)
    ensures CauseInv(c, Run(c, s, acts).loop)
    decreases |acts|
  {
    if acts != [] {
      CauseStep(c, s, acts[0]);
      CauseInvariant(c, Apply(c, s, acts[0]), acts[1..]);
    }
  }

  // Why every finished run has ended as it has. Straight after Running, the driver's result decides: Stopped
  // for a clean end and for a lost connection without auto-reconnect, Failed with the driver's reason for a
  // fatal error. After a Reconnecting the attempt decides: Failed if it exceeds the limit, Stopped, by
  // cancellation, if not. Before the first driver only a cancellation ends the loop.
  lemma EveryEndHasItsCause(c: Config, acts: seq<Action>)
    requires Legal(c, Init(), acts) && Run(c, Init(), acts).loop.pc.Done?
    ensures |Run(c, Init(), acts).loop.sends| >= 2 && EndsFor(c, Run(c, Init(), acts).loop)
  {
    CauseInvariant(c, Init(), acts);
  }

  // ---- attempts and retries -------------------------------------------------------------------

  // A driver was started whose loss has not been counted.
  predicate DriverUncounted(pc: Pc) {
    pc.Created? || pc.Join? || pc.AwaitBridge? || pc.AbortPump? || pc.Settle? || pc.NextDelay?
  }

  predicate AttemptInv(l: Loop) {
    && l.attempts == Min(l.losses, Backoff.U32_MAX)
    && (l.pc.Publish? || l.pc.Limit? ==>
          && l.losses >= 1 && l.pc.attempt == Min(l.losses, Backoff.U32_MAX)
          && l.pc.delay == Backoff.DelaySecs(l.losses - 1))
    && (l.pc.Sleep? ==> l.losses >= 1 && l.pc.delay == Backoff.DelaySecs(l.losses - 1))
  }

  predicate RetryInv(c: Config, l: Loop) {
    && (if l.pc.Done? then l.starts <= l.losses + 1
        else l.starts <= l.losses + if DriverUncounted(l.pc) then 1 else 0)
    && (c.maxAttempts.Some? && c.maxAttempts.value < Backoff.U32_MAX ==>
          && l.losses <= c.maxAttempts.value + (if l.pc.Publish? || l.pc.Limit? || l.pc.Done? then 1 else 0)
          && l.starts <= c.maxAttempts.value + 1)
  }

  // The pump only resets the counter while a driver's tasks exist.
  predicate PumpPhase(s: State) {
    s.out.pump.NoPump? || DriverPhase(s.loop.pc)
  }

  lemma PumpPhaseLoopStep(c: Config, s: State)
    requires PumpPhase(s) && LoopReady(s)
    ensures PumpPhase(LoopStep(c, s))
  {
  }

  lemma PumpPhaseStep(c: Config, s: State, a: Action)
    requires PumpPhase(s) && Enabled(c, s, a)
    ensures PumpPhase(Apply(c, s, a))
  {
    if a.LoopNext? {
      PumpPhaseLoopStep(c, s);
    }
  }

  lemma AttemptLoopStep(c: Config, l: Loop)
    requires AttemptInv(l) && LoopCanStep(l)
    ensures AttemptInv(LoopAfter(c, l))
  {
    if l.pc.NextDelay? {
      Backoff.SaturationInvisible(l.losses);
    }
  }

  lemma RetryLoopStep(c: Config, l: Loop)
    requires AttemptInv(l) && RetryInv(c, l) && LoopCanStep(l)
    ensures RetryInv(c, LoopAfter(c, l))
  {
  }

  lemma AttemptStep(c: Config, s: State, a: Action)
    requires AttemptInv(s.loop) && RetryInv(c, s.loop) && PumpPhase(s) && Enabled(c, s, a)
    ensures AttemptInv(Apply(c, s, a).loop) && RetryInv(c, Apply(c, s, a).loop)
  {
    if a.LoopNext? {
      AttemptLoopStep(c, s.loop);
      RetryLoopStep(c, s.loop);
    } else if !LoopAction(a) {
      Frames(c, s, a);
    }
  }

  lemma {:induction false} RetryInvariant(c: Config, s: State, acts: seq<Action>)
    requires RetryInv(c, s.loop) && AttemptInv(s.loop) && PumpPhase(s) && Legal(c, s, acts)
    ensures var t := Run(c, s, acts); RetryInv(c, t.loop) && AttemptInv(t.loop) && PumpPhase(t)
    decreases |acts|
  {
    if acts != [] {
      AttemptStep(c, s, acts[0]);
      PumpPhaseStep(c, s, acts[0]);
      RetryInvariant(c, Apply(c, s, acts[0]), acts[1..]);
    }
  }

  // For every placement of the pump's resets: the attempt number about to be published is the number of
  // losses since the last reset, this one included, saturated at the u32 maximum; and the sleep that
  // follows it is the back-off delay of the losses before it.
  lemma PublishedAttempts(c: Config, acts: seq<Action>)
    requires Legal(c, Init(), acts)
    ensures var l := Run(c, Init(), acts).loop;
            && (l.pc.Publish? ==> l.losses >= 1 && l.pc.attempt == Min(l.losses, 4294967295))
            && (l.pc.Sleep? ==> l.losses >= 1 && l.pc.delay == Backoff.DelaySecs(l.losses - 1))
  {
    RetryInvariant(c, Init(), acts);
  }

  // Is `a` the pump handling a Connected event?
  predicate Resets(s: State, a: Action) {
    a.PumpTake? && s.out.events != [] && s.out.events[0].Connected?
  }

  // No Connected event is handled along the run.
  predicate NoReset(c: Config, s: State, acts: seq<Action>)
    requires Legal(c, s, acts)
    decreases |acts|
  {
    acts == [] || (!Resets(s, acts[0]) && NoReset(c, Apply(c, s, acts[0]), acts[1..]))
  }

  // Drivers created, and connection losses counted, along the run.
  function Creations(c: Config, s: State, acts: seq<Action>): nat
    requires Legal(c, s, acts)
    decreases |acts|
  {
    if acts == [] then 0 else
      (if acts[0].LoopNext? && s.loop.pc.Spawned? then 1 else 0) + Creations(c, Apply(c, s, acts[0]), acts[1..])
  }

  function LossesCounted(c: Config, s: State, acts: seq<Action>): nat
    requires Legal(c, s, acts)
    decreases |acts|
  {
    if acts == [] then 0 else
      (if acts[0].LoopNext? && s.loop.pc.NextDelay? then 1 else 0) + LossesCounted(c, Apply(c, s, acts[0]), acts[1..])
  }

  // One step's contribution to the counters.
  lemma CountersStep(c: Config, s: State, a: Action)
    requires Enabled(c, s, a)
    ensures var l := Apply(c, s, a).loop;
            var created := if a.LoopNext? && s.loop.pc.Spawned? then 1 else 0;
            && l.drivers == s.loop.drivers + created
            && (!Resets(s, a) ==>
                  && l.starts == s.loop.starts + created
                  && l.losses == s.loop.losses + if a.LoopNext? && s.loop.pc.NextDelay? then 1 else 0)
  {
    if !LoopAction(a) {
      Frames(c, s, a);
    }
  }

  lemma {:induction false} CountersCount(c: Config, s: State, acts: seq<Action>)
    requires Legal(c, s, acts)
    ensures Run(c, s, acts).loop.drivers == s.loop.drivers + Creations(c, s, acts)
    ensures NoReset(c, s, acts) ==>
              && Run(c, s, acts).loop.starts == s.loop.starts + Creations(c, s, acts)
              && Run(c, s, acts).loop.losses == s.loop.losses + LossesCounted(c, s, acts)
    decreases |acts|
  {
    if acts != [] {
      CountersStep(c, s, acts[0]);
      CountersCount(c, Apply(c, s, acts[0]), acts[1..]);
    }
  }

  // With a limit m below the u32 maximum, at most m + 1 drivers are created along any stretch of any run
  // that begins where the counter is zero and handles no Connected event.
  lemma BoundedRetries(c: Config, before: seq<Action>, acts: seq<Action>)
    requires c.maxAttempts.Some? && c.maxAttempts.value < 4294967295
    requires Legal(c, Init(), before) && Legal(c, Run(c, Init(), before), acts)
    requires NoReset(c, Run(c, Init(), before), acts)
    ensures Creations(c, Run(c, Init(), before), acts) <= c.maxAttempts.value + 1
    ensures var s := Run(c, Init(), before); s.loop.losses + LossesCounted(c, s, acts) <= c.maxAttempts.value + 1
  {
    var s := Run(c, Init(), before);
    RetryInvariant(c, Init(), before);
    RetryInvariant(c, s, acts);
    CountersCount(c, s, acts);
  }

  // With the limit at the u32 maximum the saturating counter never exceeds it, so no attempt is the last.
  lemma LimitAtMaximumNeverReached(c: Config, acts: seq<Action>)
    requires ValidConfig(c) && Legal(c, Init(), acts) && Run(c, Init(), acts).loop.pc.Limit?
    requires c.maxAttempts == Some(4294967295)
    ensures var t := Run(c, Init(), acts); LoopStep(c, t).loop.pc.Sleep?
  {
    RetryInvariant(c, Init(), acts);
  }
}
