/** Output fidelity: from the events of each driver run through the broadcast log to what a client is sent. */
module PipelineOutput {
  import opened Pipeline
  import opened PipelineInput
  import opened Sequences
  import opened Wrappers

  function Outputs(events: seq<DriverEvent>): seq<Chunk> {
    if events == [] then [] else (if events[0].Output? then [events[0].chunk] else []) + Outputs(events[1..])
  }

  function Notices(events: seq<DriverEvent>): seq<Chunk> {
    if events == [] then [] else (if events[0].Notice? then [events[0].text] else []) + Notices(events[1..])
  }

  lemma {:induction false} OutputsConcat(a: seq<DriverEvent>, b: seq<DriverEvent>)
    ensures Outputs(a + b) == Outputs(a) + Outputs(b)
  {
    if a == [] {
      assert a + b == b;
    } else {
      assert (a + b)[1..] == a[1..] + b;
      OutputsConcat(a[1..], b);
      Associative(if a[0].Output? then [a[0].chunk] else [], Outputs(a[1..]), Outputs(b));
    }
  }

  lemma {:induction false} NoticesConcat(a: seq<DriverEvent>, b: seq<DriverEvent>)
    ensures Notices(a + b) == Notices(a) + Notices(b)
  {
    if a == [] {
      assert a + b == b;
    } else {
      assert (a + b)[1..] == a[1..] + b;
      NoticesConcat(a[1..], b);
      Associative(if a[0].Notice? then [a[0].text] else [], Notices(a[1..]), Notices(b));
    }
  }

  lemma EventsSnoc(a: seq<DriverEvent>, e: DriverEvent)
    ensures Outputs(a + [e]) == Outputs(a) + if e.Output? then [e.chunk] else []
    ensures Notices(a + [e]) == Notices(a) + if e.Notice? then [e.text] else []
  {
    OutputsConcat(a, [e]);
    NoticesConcat(a, [e]);
    assert Outputs([e]) == (if e.Output? then [e.chunk] else []) + Outputs([]);
    assert Notices([e]) == (if e.Notice? then [e.text] else []) + Notices([]);
  }

  // The upstream chunks, and the system lines, of a log in broadcast order.
  function Relayed(log: seq<Entry>): seq<Chunk> {
    if log == [] then [] else
      var n := |log| - 1;
      Relayed(log[..n]) + if log[n].Out? then [log[n].chunk] else []
  }

  function Lines(log: seq<Entry>): seq<Chunk> {
    if log == [] then [] else
      var n := |log| - 1;
      Lines(log[..n]) + if log[n].System? then [log[n].chunk] else []
  }

  lemma LogSnoc(log: seq<Entry>, e: Entry)
    ensures Relayed(log + [e]) == Relayed(log) + if e.Out? then [e.chunk] else []
    ensures Lines(log + [e]) == Lines(log) + if e.System? then [e.chunk] else []
  {
    assert (log + [e])[..|log|] == log;
  }

  function InPump(p: Pump): seq<Chunk> {
    if p.Pushing? then [p.chunk] else []
  }

  function InForwarder(h: Option<Chunk>): seq<Chunk> {
    if h.Some? then [h.value] else []
  }

  // The chunks passed on by finished runs, in run order.
  function PushedBy(past: seq<OutRun>): seq<Chunk> {
    if past == [] then [] else
      var n := |past| - 1;
      PushedBy(past[..n]) + past[n].pushed
  }

  function NoticeLines(texts: seq<Chunk>): seq<Chunk> {
    seq(|texts|, i requires 0 <= i < |texts| => NoticeLine(texts[i]))
  }

  // The system lines of finished runs: a run's notices, then the line announcing the reconnect it led to.
  function LinesBy(past: seq<OutRun>, reconnects: nat): seq<Chunk> {
    if past == [] then [] else
      var n := |past| - 1;
      LinesBy(past[..n], Min(reconnects, n)) + NoticeLines(past[n].noticed) + if reconnects > n then [LOST_LINE] else []
  }

  // A finished run: what was passed on is a prefix of what the driver emitted, short by at most a full
  // event queue and the chunk the pump held when it was aborted.
  predicate FaithfulRun(r: OutRun) {
    && r.pushed <= Outputs(r.emitted)
    && r.noticed <= Notices(r.emitted)
    && |Outputs(r.emitted)| - |r.pushed| <= EVENT_QUEUE + 1
    && |Notices(r.emitted)| - |r.noticed| <= EVENT_QUEUE
  }

  predicate PumpInv(s: State) {
    var o := s.out;
    && |o.events| <= EVENT_QUEUE && |o.forward| <= FORWARD_QUEUE
    && (o.pump.NoPump? <==> !DriverPhase(s.loop.pc))
    && (o.pump.NoPump? ==> o.sending.None? && o.events == [] && o.emitted == [] && o.pushed == [] && o.noticed == [])
    && Outputs(o.emitted) == o.pushed + InPump(o.pump) + Outputs(o.events)
    && Notices(o.emitted) == o.noticed + Notices(o.events)
    && (forall k :: 0 <= k < |o.past| ==> FaithfulRun(o.past[k]))
  }

  // Runs and reconnect lines alternate.
  predicate ReconnectInv(s: State) {
    var n := |s.out.past|;
    match s.loop.pc
    case Settle(_) => n == s.out.reconnects + 1
    case Done => s.out.reconnects <= n <= s.out.reconnects + 1
    case _ => n == s.out.reconnects
  }

  predicate RelayInv(o: Outflow) {
    Relayed(o.log) + InForwarder(o.hand) + o.forward == PushedBy(o.past) + o.pushed
  }

  predicate LinesInv(o: Outflow) {
    Lines(o.log) == LinesBy(o.past, o.reconnects) + NoticeLines(o.noticed)
  }

  lemma {:induction false} LengthBound(events: seq<DriverEvent>)
    ensures |Outputs(events)| + |Notices(events)| <= |events|
  {
    if events != [] {
      LengthBound(events[1..]);
    }
  }

  lemma PumpTakeStep(c: Config, s: State)
    requires PumpInv(s) && Enabled(c, s, PumpTake)
    ensures PumpInv(Apply(c, s, PumpTake))
  {
    var o := s.out;
    var e := o.events[0];
    assert Outputs(o.events) == (if e.Output? then [e.chunk] else []) + Outputs(o.events[1..]);
    assert Notices(o.events) == (if e.Notice? then [e.text] else []) + Notices(o.events[1..]);
  }

  lemma ArchiveFaithful(c: Config, s: State, res: DriverResult)
    requires PumpInv(s) && s.loop.pc == AbortPump(res)
    ensures PumpInv(LoopStep(c, s))
  {
    var o := s.out;
    LengthBound(o.events);
    assert o.pushed + InPump(o.pump) + Outputs(o.events) == o.pushed + (InPump(o.pump) + Outputs(o.events));
    assert FaithfulRun(OutRun(o.emitted, o.pushed, o.noticed));
  }

  lemma PumpSentStep(c: Config, s: State)
    requires PumpInv(s) && Enabled(c, s, DriverSent)
    ensures PumpInv(Apply(c, s, DriverSent))
  {
    var o := s.out;
    EventsSnoc(o.emitted, o.sending.value);
    EventsSnoc(o.events, o.sending.value);
  }

  lemma PumpLoopStep(c: Config, s: State)
    requires PumpInv(s) && BridgeInv(s) && LoopReady(s)
    ensures PumpInv(LoopStep(c, s))
  {
    if s.loop.pc.AbortPump? {
      ArchiveFaithful(c, s, s.loop.pc.result);
    }
  }

  lemma PumpInvStep(c: Config, s: State, a: Action)
    requires PumpInv(s) && BridgeInv(s) && Enabled(c, s, a)
    ensures PumpInv(Apply(c, s, a))
  {
    if a.LoopNext? {
      PumpLoopStep(c, s);
    } else if a.PumpTake? {
      PumpTakeStep(c, s);
    } else if a.DriverSent? {
      PumpSentStep(c, s);
    } else if !OutputAction(a) {
      Frames(c, s, a);
      PhaseKept(c, s, a);
    }
  }

  // Only the loop's own next statement moves it into or out of a driver phase.
  lemma PhaseKept(c: Config, s: State, a: Action)
    requires Enabled(c, s, a) && !a.LoopNext?
    ensures DriverPhase(Apply(c, s, a).loop.pc) == DriverPhase(s.loop.pc)
  {
  }

  lemma ReconnectLoopStep(c: Config, s: State)
    requires ReconnectInv(s) && LoopReady(s)
    ensures ReconnectInv(LoopStep(c, s))
  {
  }

  lemma ReconnectInvStep(c: Config, s: State, a: Action)
    requires ReconnectInv(s) && Enabled(c, s, a)
    ensures ReconnectInv(Apply(c, s, a))
  {
    if a.LoopNext? {
      ReconnectLoopStep(c, s);
    }
  }

  lemma RelayForwardTake(o: Outflow)
    requires RelayInv(o) && o.hand.None? && o.forward != []
    ensures RelayInv(o.(hand := Some(o.forward[0]), forward := o.forward[1..]))
  {
    assert o.forward == [o.forward[0]] + o.forward[1..];
    assert Relayed(o.log) + [] + o.forward == Relayed(o.log) + [o.forward[0]] + o.forward[1..];
  }

  lemma RelayLoopStep(c: Config, s: State)
    requires RelayInv(s.out) && PumpInv(s) && LoopReady(s)
    ensures RelayInv(LoopStep(c, s).out)
  {
    var o, p := s.out, LoopStep(c, s).out;
    match s.loop.pc
    case AbortPump(_) => assert p.past[..|o.past|] == o.past;
    case Settle(_) => LogSnoc(o.log, System(LOST_LINE));
    case _ =>
  }

  lemma RelayPush(o: Outflow)
    requires RelayInv(o) && o.pump.Pushing?
    ensures RelayInv(o.(forward := o.forward + [o.pump.chunk], pushed := o.pushed + [o.pump.chunk], pump := Receiving))
  {
    assert Relayed(o.log) + InForwarder(o.hand) + (o.forward + [o.pump.chunk])
        == Relayed(o.log) + InForwarder(o.hand) + o.forward + [o.pump.chunk];
    assert PushedBy(o.past) + (o.pushed + [o.pump.chunk]) == PushedBy(o.past) + o.pushed + [o.pump.chunk];
  }

  lemma RelayStep(c: Config, s: State, a: Action)
    requires RelayInv(s.out) && PumpInv(s) && Enabled(c, s, a)
    ensures RelayInv(Apply(c, s, a).out)
  {
    if a.LoopNext? {
      RelayLoopStep(c, s);
    } else if a.PumpTake? {
      if s.out.events[0].Notice? {
        LogSnoc(s.out.log, System(NoticeLine(s.out.events[0].text)));
      }
    } else if a.PumpPush? {
      RelayPush(s.out);
    } else if a.ForwardTake? {
      RelayForwardTake(s.out);
    } else if a.ForwardSend? {
      LogSnoc(s.out.log, Out(s.out.hand.value));
    } else if !OutputAction(a) {
      Frames(c, s, a);
    }
  }

  lemma LinesArchive(o: Outflow, r: OutRun)
    requires o.reconnects == |o.past|
    ensures LinesBy(o.past + [r], o.reconnects) == LinesBy(o.past, o.reconnects) + NoticeLines(r.noticed)
  {
    assert (o.past + [r])[..|o.past|] == o.past;
    assert NoticeLines(r.noticed) + [] == NoticeLines(r.noticed);
  }

  lemma LinesReconnect(past: seq<OutRun>, n: nat)
    requires |past| == n + 1
    ensures LinesBy(past, n + 1) == LinesBy(past, n) + [LOST_LINE]
  {
    assert LinesBy(past, n) == LinesBy(past[..n], n) + NoticeLines(past[n].noticed) + [];
  }

  lemma LinesLoopStep(c: Config, s: State)
    requires LinesInv(s.out) && PumpInv(s) && ReconnectInv(s) && LoopReady(s)
    ensures LinesInv(OutflowAfter(c, s))
  {
    var o := s.out;
    assert NoticeLines([]) == [];
    if s.loop.pc.AbortPump? {
      LinesArchive(o, OutRun(o.emitted, o.pushed, o.noticed));
    } else if s.loop.pc.Settle? {
      LogSnoc(o.log, System(LOST_LINE));
      LinesReconnect(o.past, |o.past| - 1);
    }
  }

  lemma LinesNotice(o: Outflow, text: Chunk)
    requires LinesInv(o)
    ensures LinesInv(o.(log := o.log + [System(NoticeLine(text))], noticed := o.noticed + [text]))
  {
    LogSnoc(o.log, System(NoticeLine(text)));
    assert NoticeLines(o.noticed + [text]) == NoticeLines(o.noticed) + [NoticeLine(text)];
  }

  lemma LinesStep(c: Config, s: State, a: Action)
    requires LinesInv(s.out) && PumpInv(s) && ReconnectInv(s) && Enabled(c, s, a)
    ensures LinesInv(Apply(c, s, a).out)
  {
    if a.LoopNext? {
      LinesLoopStep(c, s);
    } else if a.PumpTake? {
      if s.out.events[0].Notice? {
        LinesNotice(s.out.(events := s.out.events[1..]), s.out.events[0].text);
      }
    } else if a.ForwardSend? {
      LogSnoc(s.out.log, Out(s.out.hand.value));
    } else if !OutputAction(a) {
      Frames(c, s, a);
    }
  }

  predicate OutputInv(s: State) {
    BridgeInv(s) && PumpInv(s) && ReconnectInv(s) && RelayInv(s.out) && LinesInv(s.out)
  }

  lemma {:induction false} OutputInvariant(c: Config, s: State, acts: seq<Action>)
    requires OutputInv(s) && Legal(c, s, acts)
    ensures OutputInv(Run(c, s, acts))
    decreases |acts|
  {
    if acts != [] {
      BridgeInvStep(c, s, acts[0]);
      PumpInvStep(c, s, acts[0]);
      ReconnectInvStep(c, s, acts[0]);
      RelayStep(c, s, acts[0]);
      LinesStep(c, s, acts[0]);
      OutputInvariant(c, Apply(c, s, acts[0]), acts[1..]);
    }
  }

  lemma PushedIsPrefix(s: State)
    requires PumpInv(s)
    ensures s.out.pushed <= Outputs(s.out.emitted) && s.out.noticed <= Notices(s.out.emitted)
  {
    var o := s.out;
    Associative(o.pushed, InPump(o.pump), Outputs(o.events));
  }

  // The log is an interleaving of two streams: the prefixes each driver run got through, in run order
  // (the last of them possibly still queued), and the system lines in run order.
  lemma OutputFidelity(c: Config, acts: seq<Action>)
    requires Legal(c, Init(), acts)
    ensures var o := Run(c, Init(), acts).out;
            && Relayed(o.log) + InForwarder(o.hand) + o.forward == PushedBy(o.past) + o.pushed
            && Lines(o.log) == LinesBy(o.past, o.reconnects) + NoticeLines(o.noticed)
            && (forall k :: 0 <= k < |o.past| ==> FaithfulRun(o.past[k]))
            && o.pushed <= Outputs(o.emitted) && o.noticed <= Notices(o.emitted)
            && o.reconnects <= |o.past| <= o.reconnects + 1
            && (var pc := Run(c, Init(), acts).loop.pc; !pc.Settle? && !pc.Done? ==> |o.past| == o.reconnects)
  {
    OutputInvariant(c, Init(), acts);
    PushedIsPrefix(Run(c, Init(), acts));
  }

  // ---- from the drivers on --------------------------------------------------------------------

  // What the drivers have sent or tried to send, run by run.
  datatype Sendings = Sendings(past: seq<seq<DriverEvent>>, current: seq<DriverEvent>)

  function SendingsAfter(s: State, a: Action, h: Sendings): Sendings {
    if a.DriverEmit? then h.(current := h.current + [a.event])
    else if a.LoopNext? && s.loop.pc.AbortPump? then Sendings(h.past + [h.current], [])
    else h
  }

  function SendingsAlong(c: Config, s: State, acts: seq<Action>, h: Sendings): Sendings
    requires Legal(c, s, acts)
    decreases |acts|
  {
    if acts == [] then h
    else SendingsAlong(c, Apply(c, s, acts[0]), acts[1..], SendingsAfter(s, acts[0], h))
  }

  function Waiting(e: Option<DriverEvent>): seq<DriverEvent> {
    if e.Some? then [e.value] else []
  }

  predicate SendingsInv(o: Outflow, h: Sendings) {
    && h.current == o.emitted + Waiting(o.sending)
    && |h.past| == |o.past|
    && forall k :: 0 <= k < |o.past| ==>
         o.past[k].emitted <= h.past[k] && |h.past[k]| <= |o.past[k].emitted| + 1
  }

  lemma SendingsLoopStep(c: Config, s: State, h: Sendings)
    requires PumpInv(s) && LoopReady(s) && SendingsInv(s.out, h)
    ensures SendingsInv(LoopStep(c, s).out, SendingsAfter(s, LoopNext, h))
  {
  }

  lemma SendingsStep(c: Config, s: State, a: Action, h: Sendings)
    requires PumpInv(s) && Enabled(c, s, a) && SendingsInv(s.out, h)
    ensures SendingsInv(Apply(c, s, a).out, SendingsAfter(s, a, h))
  {
    if a.LoopNext? {
      SendingsLoopStep(c, s, h);
    } else if !OutputAction(a) {
      Frames(c, s, a);
    }
  }

  lemma {:induction false} SendingsRun(c: Config, s: State, acts: seq<Action>, h: Sendings)
    requires PumpInv(s) && BridgeInv(s) && Legal(c, s, acts) && SendingsInv(s.out, h)
    ensures SendingsInv(Run(c, s, acts).out, SendingsAlong(c, s, acts, h))
    decreases |acts|
  {
    if acts != [] {
      var a := acts[0];
      SendingsStep(c, s, a, h);
      BridgeInvStep(c, s, a);
      PumpInvStep(c, s, a);
      SendingsRun(c, Apply(c, s, a), acts[1..], SendingsAfter(s, a, h));
    }
  }

  // In every run the events the event queue has accepted are those the drivers sent, run by run and in
  // order, short of at most the one that was still waiting when a run's pump was aborted.
  lemma AcceptedAreSent(c: Config, acts: seq<Action>)
    requires Legal(c, Init(), acts)
    ensures var o, h := Run(c, Init(), acts).out, SendingsAlong(c, Init(), acts, Sendings([], []));
            && h.current == o.emitted + Waiting(o.sending)
            && |h.past| == |o.past|
            && forall k :: 0 <= k < |o.past| ==>
                 o.past[k].emitted <= h.past[k] && |h.past[k]| <= |o.past[k].emitted| + 1
  {
    SendingsRun(c, Init(), acts, Sendings([], []));
  }

  // The system lines, byte by byte: ESC "[33m*** termhub: ", a text, ESC "[0m", CR, LF.
  lemma SystemLineBytes(text: Chunk)
    ensures NoticeLine(text) ==
              [27, 91, 51, 51, 109, 42, 42, 42, 32, 116, 101, 114, 109, 104, 117, 98, 58, 32]
              + text + [27, 91, 48, 109, 13, 10]
    ensures LAG_LINE ==
              NoticeLine([99, 108, 105, 101, 110, 116, 32, 108, 97, 103, 103, 101, 100, 44, 32,
                          111, 117, 116, 112, 117, 116, 32, 116, 114, 117, 110, 99, 97, 116, 101, 100])
    ensures LOST_LINE ==
              NoticeLine([117, 112, 115, 116, 114, 101, 97, 109, 32, 108, 111, 115, 116, 44, 32,
                          114, 101, 99, 111, 110, 110, 101, 99, 116, 105, 110, 103, 46, 46, 46])
  {
  }

  // ---- queues stay within their capacities ----------------------------------------------------

  lemma {:induction false} FanInBound(c: Config, s: State, acts: seq<Action>)
    requires |s.inp.fanIn| <= c.fanInCapacity && Legal(c, s, acts)
    ensures |Run(c, s, acts).inp.fanIn| <= c.fanInCapacity
    decreases |acts|
  {
    if acts != [] {
      if !InputAction(acts[0]) {
        Frames(c, s, acts[0]);
      }
      FanInBound(c, Apply(c, s, acts[0]), acts[1..]);
    }
  }

  lemma QueueBounds(c: Config, acts: seq<Action>)
    requires Legal(c, Init(), acts)
    ensures var s := Run(c, Init(), acts);
            && |s.inp.fanIn| <= c.fanInCapacity && |s.inp.queue| <= 256
            && |s.out.events| <= 256 && |s.out.forward| <= 256
  {
    FanInBound(c, Init(), acts);
    OutputInvariant(c, Init(), acts);
  }

  // ---- the bound on lost output is attained ---------------------------------------------------

  // The driver emits one empty chunk.
  lemma EmitOne(c: Config, acts: seq<Action>) returns (more: seq<Action>)
    requires Legal(c, Init(), acts)
    requires var s := Run(c, Init(), acts);
             s.loop.driver.Live? && !s.out.pump.NoPump? && s.out.sending.None? && |s.out.events| < EVENT_QUEUE
    ensures Legal(c, Init(), more)
    ensures var s, t := Run(c, Init(), acts), Run(c, Init(), more);
            t == s.(out := s.out.(events := s.out.events + [Output([])], emitted := s.out.emitted + [Output([])]))
  {
    more := OneMore(c, Init(), acts, DriverEmit(Output([])));
    more := OneMore(c, Init(), more, DriverSent);
  }

  // The pump holds a chunk and the driver fills the event queue behind it.
  lemma FillEvents(c: Config) returns (acts: seq<Action>)
    ensures Legal(c, Init(), acts)
    ensures var s := Run(c, Init(), acts);
            && s.loop.pc.Join? && s.loop.driver.Live? && s.inp.bridge.Selecting?
            && s.out.past == [] && s.out.pushed == []
            && s.out.pump.Pushing? && |s.out.events| == EVENT_QUEUE && |Outputs(s.out.emitted)| == EVENT_QUEUE + 1
  {
    acts := Started(c);
    acts := EmitOne(c, acts);
    EventsSnoc([], Output([]));
    acts := OneMore(c, Init(), acts, PumpTake);
    var n := 0;
    while n < EVENT_QUEUE
      invariant n <= EVENT_QUEUE && Legal(c, Init(), acts)
      invariant var s := Run(c, Init(), acts);
                && s.loop.pc.Join? && s.loop.driver.Live? && s.inp.bridge.Selecting?
                && s.out.past == [] && s.out.pushed == [] && s.out.sending.None?
                && s.out.pump.Pushing? && |s.out.events| == n && |Outputs(s.out.emitted)| == n + 1
    {
      EventsSnoc(Run(c, Init(), acts).out.emitted, Output([]));
      acts := EmitOne(c, acts);
      n := n + 1;
    }
  }

  // Some run loses 257 chunks of output with its first driver: no smaller bound holds.
  lemma OutputLossTight(c: Config) returns (acts: seq<Action>)
    ensures Legal(c, Init(), acts)
    ensures var o := Run(c, Init(), acts).out;
            |o.past| == 1 && o.past[0].pushed == [] && |Outputs(o.past[0].emitted)| == 257
  {
    acts := FillEvents(c);
    acts := OneMore(c, Init(), acts, DriverExit(Clean));
    acts := OneMore(c, Init(), acts, LoopNext);
    acts := OneMore(c, Init(), acts, BridgeStop);
    acts := OneMore(c, Init(), acts, LoopNext);
    acts := OneMore(c, Init(), acts, LoopNext);
  }
}
