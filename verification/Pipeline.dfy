/**
 * The session pipeline as an interleaved step system.
 *
 * `run_loop` of runner.rs, the tasks it spawns (uptime ticker, event pump, input bridge, driver), the
 * forwarder of hub.rs and the forward task of every attached client each advance by one `Action` at a
 * time, between two awaits. A bounded mpsc channel is a sequence, the broadcast channel a log with one
 * cursor per subscriber, the watch channel a cell, a cancellation token a flag that stays set.
 */
module Pipeline {
  import opened Wrappers
  import opened Sequences
  import Backoff

  const DRIVER_QUEUE: nat := 256
  const EVENT_QUEUE: nat := 256
  const FORWARD_QUEUE: nat := 256

  datatype Config = Config(
    autoReconnect: bool,
    maxAttempts: Option<nat>,
    fanInCapacity: nat,
    ringCapacity: nat)

  // tokio refuses channels of capacity zero; `max_attempts` is a u32.
  predicate ValidConfig(c: Config) {
    && c.fanInCapacity > 0
    && c.ringCapacity > 0
    && (c.maxAttempts.Some? ==> c.maxAttempts.value <= Backoff.U32_MAX)
  }

  // Why a session failed: a driver's fatal error, or the text "max retries exceeded" around the last loss.
  datatype FailReason = FatalError(text: string) | RetriesExceeded(last: string)

  datatype Status = Starting | Running | Reconnecting(attempt: nat) | Failed(reason: FailReason) | Stopped

  datatype DriverEvent = Connected | Output(chunk: Chunk) | Notice(text: Chunk)

  datatype DriverResult = Clean | Fatal(reason: string) | IoLost(reason: string)

  datatype Driver = NotStarted | Live | Exited(result: DriverResult)

  // ---- the retry loop -------------------------------------------------------------------------

  datatype Pc =
    | Boot | Top | Spawned | Created | Join
    | AwaitBridge(result: DriverResult) | AbortPump(result: DriverResult) | Settle(result: DriverResult)
    | NextDelay(why: string)
    | Publish(delay: nat, attempt: nat, why: string)
    | Limit(delay: nat, attempt: nat, why: string)
    | Sleep(delay: nat)
    | Done

  datatype Loop = Loop(
    pc: Pc,
    cancelled: bool,
    driver: Driver,
    attempts: nat,         // the back-off counter
    cell: Option<Status>,  // the watch channel; None stands for its initial Idle
    ticking: bool,         // the uptime ticker runs
    sends: seq<Status>,    // everything the loop itself has sent
    losses: nat,           // connection losses since the counter was last zero
    starts: nat,           // drivers created since the counter was last zero
    drivers: nat)          // drivers created in all

  // ---- fan-in ---------------------------------------------------------------------------------

  datatype Bridge = NoBridge | Selecting | Holding(chunk: Chunk) | Ended

  datatype InRun = InRun(consumed: seq<Chunk>, lost: seq<Chunk>)

  datatype Inflow = Inflow(
    arrived: seq<Chunk>,   // everything clients have put on the fan-in queue
    fanIn: seq<Chunk>,
    taken: seq<Chunk>,     // everything the bridges have taken off it
    bridge: Bridge,
    stop: bool,            // bridge_cancel
    open: bool,            // the driver still holds its receiver
    queue: seq<Chunk>,     // drv_in, at most DRIVER_QUEUE
    consumed: seq<Chunk>,  // received by the current driver
    lost: seq<Chunk>,      // dropped with the current driver
    past: seq<InRun>)

  // ---- fan-out --------------------------------------------------------------------------------

  datatype Pump = NoPump | Receiving | Pushing(chunk: Chunk)

  datatype OutRun = OutRun(emitted: seq<DriverEvent>, pushed: seq<Chunk>, noticed: seq<Chunk>)

  datatype Entry = Out(chunk: Chunk) | System(chunk: Chunk)

  datatype Outflow = Outflow(
    sending: Option<DriverEvent>,  // the event the driver is waiting to put on the event queue
    events: seq<DriverEvent>,      // at most EVENT_QUEUE
    pump: Pump,
    emitted: seq<DriverEvent>,     // events the event queue accepted from the current driver
    pushed: seq<Chunk>,            // chunks the pump passed on for the current driver
    noticed: seq<Chunk>,           // notices the pump broadcast for the current driver
    past: seq<OutRun>,
    reconnects: nat,               // "upstream lost" lines broadcast by the loop
    forward: seq<Chunk>,           // the forwarder's queue, at most FORWARD_QUEUE
    hand: Option<Chunk>,           // the chunk in the forwarder's hand
    log: seq<Entry>)               // everything ever broadcast

  // ---- subscribers ----------------------------------------------------------------------------

  datatype Item = Got(chunk: Chunk) | Lagged(missed: nat, told: bool)

  datatype Subscriber = Subscriber(
    start: nat,            // log length when it subscribed
    cursor: nat,
    items: seq<Item>,      // results of its recv calls
    bytesOut: nat,
    written: seq<Chunk>,   // chunks written to the client's channel
    live: bool)

  datatype State = State(loop: Loop, inp: Inflow, out: Outflow, subs: map<nat, Subscriber>)

  function Init(): State {
    State(
      Loop(Boot, false, NotStarted, 0, None, false, [], 0, 0, 0),
      Inflow([], [], [], NoBridge, false, false, [], [], [], []),
      Outflow(None, [], NoPump, [], [], [], [], 0, [], None, []),
      map[])
  }

  datatype Action =
    // the retry loop: its next statement, or one arm of the select around the back-off sleep
    | LoopNext | SleepElapsed | SleepCancelled
    // the outside world and the ticker
    | Cancel | Tick | TickerStop | ClientSend(chunk: Chunk)
    // the input bridge: the two arms of its select, then the send that may fail
    | BridgeTake | BridgeStop | BridgePush | BridgeFail
    // the driver
    | DriverRecv | DriverEmit(event: DriverEvent) | DriverSent | DriverExit(result: DriverResult)
    // the event pump and the forwarder
    | PumpTake | PumpPush | ForwardTake | ForwardSend
    // one client's forward task
    | Subscribe(id: nat) | SubLag(id: nat, writable: bool) | SubRecv(id: nat, writable: bool) | SubEnd(id: nat)

  // ---- enabledness ----------------------------------------------------------------------------

  // Oldest log index still held by the ring buffer.
  function RingFloor(c: Config, log: seq<Entry>): (f: nat)
    ensures f <= |log|
  {
    if |log| > c.ringCapacity then |log| - c.ringCapacity else 0
  }

  predicate LiveSub(s: State, id: nat) {
    id in s.subs && s.subs[id].live
  }

  predicate LoopReady(s: State) {
    match s.loop.pc
    case Join => s.loop.driver.Exited?
    case AwaitBridge(_) => s.inp.bridge.Ended?
    case Sleep(_) => false
    case Done => false
    case _ => true
  }

  // A client's send waits for room in the fan-in queue. The queue closes with the loop that owns its
  // receiver: a send that comes later, or still waits then, fails and leaves no trace.
  predicate Enabled(c: Config, s: State, a: Action) {
    match a
    case LoopNext => LoopReady(s)
    case SleepElapsed => s.loop.pc.Sleep?
    case SleepCancelled => s.loop.pc.Sleep? && s.loop.cancelled
    case Cancel => true
    case Tick => s.loop.ticking
    case TickerStop => s.loop.ticking && s.loop.cancelled
    case ClientSend(_) => |s.inp.fanIn| < c.fanInCapacity && !s.loop.pc.Done?
    case BridgeTake => s.inp.bridge.Selecting? && s.inp.fanIn != []
    case BridgeStop => s.inp.bridge.Selecting? && s.inp.stop
    case BridgePush => s.inp.bridge.Holding? && s.inp.open && |s.inp.queue| < DRIVER_QUEUE
    case BridgeFail => s.inp.bridge.Holding? && !s.inp.open
    case DriverRecv => s.loop.driver.Live? && s.inp.queue != []
    case DriverEmit(_) => !s.loop.driver.NotStarted? && !s.out.pump.NoPump? && s.out.sending.None?
    case DriverSent => s.out.sending.Some? && |s.out.events| < EVENT_QUEUE
    case DriverExit(_) => s.loop.driver.Live?
    case PumpTake => s.out.pump.Receiving? && s.out.events != []
    case PumpPush => s.out.pump.Pushing? && |s.out.forward| < FORWARD_QUEUE
    case ForwardTake => s.out.hand.None? && s.out.forward != []
    case ForwardSend => s.out.hand.Some?
    case Subscribe(id) => id !in s.subs
    case SubLag(id, _) => LiveSub(s, id) && s.subs[id].cursor < RingFloor(c, s.out.log)
    case SubRecv(id, _) =>
      && LiveSub(s, id)
      && RingFloor(c, s.out.log) <= s.subs[id].cursor < |s.out.log|
    case SubEnd(id) => LiveSub(s, id)
  }

  // ---- system lines ---------------------------------------------------------------------------

  // ASCII codes. The prefix is ESC and "[33m*** termhub: ", the suffix ESC and "[0m", CR, LF; the texts are
  // "client lagged, output truncated" and "upstream lost, reconnecting...".
  const SYSTEM_PREFIX: Chunk :=
    [27, 91, 51, 51, 109, 42, 42, 42, 32, 116, 101, 114, 109, 104, 117, 98, 58, 32]
  const SYSTEM_SUFFIX: Chunk := [27, 91, 48, 109, 13, 10]
  const LAGGED: Chunk :=
    [99, 108, 105, 101, 110, 116, 32, 108, 97, 103, 103, 101, 100, 44, 32,
     111, 117, 116, 112, 117, 116, 32, 116, 114, 117, 110, 99, 97, 116, 101, 100]
  const LOST: Chunk :=
    [117, 112, 115, 116, 114, 101, 97, 109, 32, 108, 111, 115, 116, 44, 32,
     114, 101, 99, 111, 110, 110, 101, 99, 116, 105, 110, 103, 46, 46, 46]
  const LAG_LINE: Chunk := NoticeLine(LAGGED)
  const LOST_LINE: Chunk := NoticeLine(LOST)

  function NoticeLine(text: Chunk): Chunk {
    SYSTEM_PREFIX + text + SYSTEM_SUFFIX
  }

  // ---- steps ----------------------------------------------------------------------------------

  function Send(l: Loop, st: Status): Loop {
    l.(sends := l.sends + [st], cell := Some(st))
  }

  // Abort the ticker, send a terminal status, leave the loop.
  function Finish(l: Loop, st: Status): Loop {
    Send(l, st).(ticking := false, pc := Done)
  }

  predicate LoopCanStep(l: Loop) {
    !l.pc.Sleep? && !l.pc.Done? && (l.pc.Join? ==> l.driver.Exited?)
  }

  function SettleLoop(c: Config, l: Loop, res: DriverResult): Loop {
    match res
    case Clean => Finish(l, Stopped)
    case Fatal(reason) => Finish(l, Failed(FatalError(reason)))
    case IoLost(reason) => if c.autoReconnect then l.(pc := NextDelay(reason)) else Finish(l, Stopped)
  }

  // The loop's next statement: what it does to the loop's own variables ...
  function LoopAfter(c: Config, l: Loop): Loop
    requires LoopCanStep(l)
  {
    match l.pc
    case Boot => Send(l, Starting).(ticking := true, pc := Top)
    case Top => if l.cancelled then Finish(l, Stopped) else l.(pc := Spawned, driver := NotStarted)
    case Spawned => l.(driver := Live, starts := l.starts + 1, drivers := l.drivers + 1, pc := Created)
    case Created => Send(l, Running).(pc := Join)
    case Join => l.(pc := AwaitBridge(l.driver.result))
    case AwaitBridge(res) => l.(pc := AbortPump(res))
    case AbortPump(res) => l.(pc := Settle(res))
    case Settle(res) => SettleLoop(c, l, res)
    case NextDelay(why) =>
      l.(attempts := Backoff.Bump(l.attempts), losses := l.losses + 1,
         pc := Publish(Backoff.DelaySecs(l.attempts), Backoff.Bump(l.attempts), why))
    case Publish(delay, attempt, why) => Send(l, Reconnecting(attempt)).(pc := Limit(delay, attempt, why))
    case Limit(delay, attempt, why) =>
      if c.maxAttempts.Some? && attempt > c.maxAttempts.value then
        Finish(l, Failed(RetriesExceeded(why)))
      else
        l.(pc := Sleep(delay))
  }

  // ... to the input side: a fresh queue and bridge for the next driver, the bridge's cancellation,
  // and, in the history, the end of a run ...
  function InflowAfter(s: State): Inflow {
    var i := s.inp;
    match s.loop.pc
    case Top =>
      if s.loop.cancelled then i
      else i.(bridge := Selecting, stop := false, open := true, queue := [], consumed := [], lost := [])
    case Join => i.(stop := true)
    case AbortPump(_) =>
      i.(past := i.past + [InRun(i.consumed, i.lost)], consumed := [], lost := [], bridge := NoBridge)
    case _ => i
  }

  // ... and to the output side: a fresh event queue and pump; the abort of the pump, which takes its
  // queue and the chunk in its hand along; and the line that announces a reconnect.
  function OutflowAfter(c: Config, s: State): Outflow {
    var o := s.out;
    match s.loop.pc
    case Top =>
      if s.loop.cancelled then o
      else o.(sending := None, events := [], pump := Receiving, emitted := [], pushed := [], noticed := [])
    case AbortPump(_) =>
      o.(past := o.past + [OutRun(o.emitted, o.pushed, o.noticed)],
         sending := None, events := [], pump := NoPump, emitted := [], pushed := [], noticed := [])
    case Settle(res) =>
      if res.IoLost? && c.autoReconnect then
        o.(log := o.log + [System(LOST_LINE)], reconnects := o.reconnects + 1)
      else o
    case _ => o
  }

  function LoopStep(c: Config, s: State): State
    requires LoopReady(s)
  {
    s.(loop := LoopAfter(c, s.loop), inp := InflowAfter(s), out := OutflowAfter(c, s))
  }

  // The pump handles one event; a Connected event zeroes the back-off counter.
  function PumpEvent(s: State, e: DriverEvent): State {
    match e
    case Connected => s.(loop := s.loop.(attempts := 0, losses := 0, starts := 0))
    case Output(chunk) => s.(out := s.out.(pump := Pushing(chunk)))
    case Notice(text) =>
      s.(out := s.out.(log := s.out.log + [System(NoticeLine(text))], noticed := s.out.noticed + [text]))
  }

  function Apply(c: Config, s: State, a: Action): State
    requires Enabled(c, s, a)
  {
    match a
    case LoopNext => LoopStep(c, s)
    case SleepElapsed => s.(loop := s.loop.(pc := Top))
    case SleepCancelled => s.(loop := Finish(s.loop, Stopped))
    case Cancel => s.(loop := s.loop.(cancelled := true))
    case Tick => s.(loop := s.loop.(cell := Some(Running)))
    case TickerStop => s.(loop := s.loop.(ticking := false))
    case ClientSend(b) => s.(inp := s.inp.(fanIn := s.inp.fanIn + [b], arrived := s.inp.arrived + [b]))
    case BridgeTake =>
      var b := s.inp.fanIn[0];
      s.(inp := s.inp.(fanIn := s.inp.fanIn[1..], taken := s.inp.taken + [b], bridge := Holding(b)))
    case BridgeStop => s.(inp := s.inp.(bridge := Ended))
    case BridgePush =>
      s.(inp := s.inp.(queue := s.inp.queue + [s.inp.bridge.chunk], bridge := Selecting))
    case BridgeFail =>
      s.(inp := s.inp.(lost := s.inp.lost + [s.inp.bridge.chunk], bridge := Ended))
    case DriverRecv =>
      s.(inp := s.inp.(consumed := s.inp.consumed + [s.inp.queue[0]], queue := s.inp.queue[1..]))
    case DriverEmit(e) => s.(out := s.out.(sending := Some(e)))
    case DriverSent =>
      var e := s.out.sending.value;
      s.(out := s.out.(sending := None, events := s.out.events + [e], emitted := s.out.emitted + [e]))
    case DriverExit(res) =>
      s.(loop := s.loop.(driver := Exited(res)),
         inp := s.inp.(open := false, queue := [], lost := s.inp.lost + s.inp.queue))
    case PumpTake => PumpEvent(s.(out := s.out.(events := s.out.events[1..])), s.out.events[0])
    case PumpPush =>
      var b := s.out.pump.chunk;
      s.(out := s.out.(forward := s.out.forward + [b], pushed := s.out.pushed + [b], pump := Receiving))
    case ForwardTake =>
      s.(out := s.out.(hand := Some(s.out.forward[0]), forward := s.out.forward[1..]))
    case ForwardSend =>
      s.(out := s.out.(log := s.out.log + [Out(s.out.hand.value)], hand := None))
    case Subscribe(id) =>
      var n := |s.out.log|;
      s.(subs := s.subs[id := Subscriber(n, n, [], 0, [], true)])
    case SubLag(id, writable) =>
      var u := s.subs[id];
      var floor := RingFloor(c, s.out.log);
      s.(subs := s.subs[id := u.(cursor := floor, items := u.items + [Lagged(floor - u.cursor, writable)],
                                 written := if writable then u.written + [LAG_LINE] else u.written)])
    case SubRecv(id, writable) =>
      var u := s.subs[id];
      var b := s.out.log[u.cursor].chunk;
      s.(subs := s.subs[id := u.(cursor := u.cursor + 1, items := u.items + [Got(b)],
                                 bytesOut := u.bytesOut + |b|,
                                 written := if writable then u.written + [b] else u.written,
                                 live := writable)])
    case SubEnd(id) => s.(subs := s.subs[id := s.subs[id].(live := false)])
  }

  // The actions that touch the loop's own state, the input side, the output side, the subscribers.
  predicate LoopAction(a: Action) {
    || a.LoopNext? || a.SleepElapsed? || a.SleepCancelled? || a.Cancel? || a.Tick? || a.TickerStop?
    || a.DriverExit? || a.PumpTake?
  }

  predicate InputAction(a: Action) {
    || a.LoopNext? || a.ClientSend? || a.BridgeTake? || a.BridgeStop? || a.BridgePush? || a.BridgeFail?
    || a.DriverRecv? || a.DriverExit?
  }

  predicate OutputAction(a: Action) {
    || a.LoopNext? || a.DriverEmit? || a.DriverSent? || a.PumpTake? || a.PumpPush? || a.ForwardTake? || a.ForwardSend?
  }

  predicate ClientAction(a: Action) {
    a.Subscribe? || a.SubLag? || a.SubRecv? || a.SubEnd?
  }

  lemma Frames(c: Config, s: State, a: Action)
    requires Enabled(c, s, a)
    ensures !LoopAction(a) ==> Apply(c, s, a).loop == s.loop
    ensures !InputAction(a) ==> Apply(c, s, a).inp == s.inp
    ensures !OutputAction(a) ==> Apply(c, s, a).out == s.out
    ensures !ClientAction(a) ==> Apply(c, s, a).subs == s.subs
  {
  }

  // ---- runs -----------------------------------------------------------------------------------

  predicate Legal(c: Config, s: State, acts: seq<Action>)
    decreases |acts|
  {
    acts == [] || (Enabled(c, s, acts[0]) && Legal(c, Apply(c, s, acts[0]), acts[1..]))
  }

  function Run(c: Config, s: State, acts: seq<Action>): State
    requires Legal(c, s, acts)
    decreases |acts|
  {
    if acts == [] then s else Run(c, Apply(c, s, acts[0]), acts[1..])
  }

  lemma {:induction false} RunConcat(c: Config, s: State, a: seq<Action>, b: seq<Action>)
    requires Legal(c, s, a) && Legal(c, Run(c, s, a), b)
    ensures Legal(c, s, a + b) && Run(c, s, a + b) == Run(c, Run(c, s, a), b)
    decreases |a|
  {
    if a == [] {
      assert a + b == b;
    } else {
      RunConcat(c, Apply(c, s, a[0]), a[1..], b);
      assert (a + b)[0] == a[0] && (a + b)[1..] == a[1..] + b;
    }
  }

  // A run takes one more step.
  lemma OneMore(c: Config, s: State, acts: seq<Action>, a: Action) returns (more: seq<Action>)
    requires Legal(c, s, acts) && Enabled(c, Run(c, s, acts), a)
    ensures more == acts + [a] && Legal(c, s, more)
    ensures Run(c, s, more) == Apply(c, Run(c, s, acts), a)
  {
    var t := Run(c, s, acts);
    more := acts + [a];
    assert [a][1..] == [];
    assert Legal(c, Apply(c, t, a), []);
    assert Legal(c, t, [a]) && Run(c, t, [a]) == Run(c, Apply(c, t, a), []);
    RunConcat(c, s, acts, [a]);
  }

  // What happens outside the session is not restricted: it may be cancelled at any moment; a driver may
  // return with any result, and send any event, also between its return and the end of its pump; a write to
  // a client may fail or not.
  lemma OutsideIsFree(c: Config, s: State, res: DriverResult, e: DriverEvent, id: nat, writable: bool)
    ensures Enabled(c, s, Cancel)
    ensures s.loop.driver.Live? ==> Enabled(c, s, DriverExit(res))
    ensures !s.loop.driver.NotStarted? && !s.out.pump.NoPump? && s.out.sending.None? ==> Enabled(c, s, DriverEmit(e))
    ensures LiveSub(s, id) && s.subs[id].cursor < |s.out.log| ==>
              Enabled(c, s, SubRecv(id, writable)) || Enabled(c, s, SubLag(id, writable))
  {
  }
}
