/**
 * `run_loop` of runner.rs as the sequential program it is. What the rest of the pipeline does to one
 * iteration is a parameter; the loop is shown to send what the step system sends along a legal run.
 */
module Runner {
  import opened Pipeline
  import opened PipelineStatus
  import opened Sequences
  import opened Wrappers
  import Backoff

  // What one iteration meets: whether cancellation is seen at its top, whether a Connected event is
  // handled while its driver runs, what the driver returns, whether the back-off sleep is cut short.
  datatype Round = Round(cancelAtTop: bool, connected: bool, result: DriverResult, cancelInSleep: bool)

  // ---- what the loop sends ----------------------------------------------------------------------

  // Statuses sent, whether the loop has ended, and where the back-off counter stands.
  datatype Outcome = Outcome(words: seq<Status>, finished: bool, attempts: nat)

  predicate Spent(c: Config, attempt: nat) {
    c.maxAttempts.Some? && attempt > c.maxAttempts.value
  }

  // What a driver's result leads to when the counter stands at `attempts`.
  function Verdict(c: Config, r: Round, attempts: nat): Outcome {
    if r.result.Clean? || (r.result.IoLost? && !c.autoReconnect) then Outcome([Stopped], true, attempts)
    else if r.result.Fatal? then Outcome([Failed(FatalError(r.result.reason))], true, attempts)
    else
      var attempt := Backoff.Bump(attempts);
      var last := LastWords(c, r, attempt);
      Outcome([Reconnecting(attempt)] + last, last != [], attempt)
  }

  // After a Reconnecting: the limit is exceeded, the sleep is cut short, or the loop goes on.
  function LastWords(c: Config, r: Round, attempt: nat): seq<Status>
    requires r.result.IoLost?
  {
    if Spent(c, attempt) then [Failed(RetriesExceeded(r.result.reason))]
    else if r.cancelInSleep then [Stopped]
    else []
  }

  // One more iteration.
  function Iterated(c: Config, o: Outcome, r: Round): Outcome {
    if r.cancelAtTop then Outcome(o.words + [Stopped], true, o.attempts)
    else
      var v := Verdict(c, r, if r.connected then 0 else o.attempts);
      Outcome(o.words + [Running] + v.words, v.finished, v.attempts)
  }

  // The loop over the given iterations, up to the one that ends it.
  function Script(c: Config, rounds: seq<Round>): Outcome {
    if rounds == [] then Outcome([Starting], false, 0)
    else
      var n := |rounds| - 1;
      var o := Script(c, rounds[..n]);
      if o.finished then o else Iterated(c, o, rounds[n])
  }

  lemma ScriptSnoc(c: Config, rounds: seq<Round>, r: Round)
    ensures var o := Script(c, rounds);
            Script(c, rounds + [r]) == if o.finished then o else Iterated(c, o, r)
  {
    assert (rounds + [r])[..|rounds|] == rounds;
  }

  // The loop's next iteration; if it is the last, it is the last of the whole script.
  lemma ScriptNext(c: Config, rounds: seq<Round>, i: nat)
    requires i < |rounds| && !Script(c, rounds[..i]).finished
    ensures var o := Iterated(c, Script(c, rounds[..i]), rounds[i]);
            Script(c, rounds[..i + 1]) == o && (o.finished ==> Script(c, rounds) == o)
  {
    ScriptSnoc(c, rounds[..i], rounds[i]);
    assert rounds[..i] + [rounds[i]] == rounds[..i + 1];
    if Script(c, rounds[..i + 1]).finished {
      ScriptStops(c, rounds, i + 1);
    }
  }

  // Iterations after the last one change nothing.
  lemma {:induction false} ScriptStops(c: Config, rounds: seq<Round>, n: nat)
    requires n <= |rounds| && Script(c, rounds[..n]).finished
    ensures Script(c, rounds) == Script(c, rounds[..n])
    decreases |rounds|
  {
    if n < |rounds| {
      assert rounds[..|rounds| - 1][..n] == rounds[..n];
      ScriptStops(c, rounds[..|rounds| - 1], n);
    } else {
      assert rounds[..n] == rounds;
    }
  }

  // ---- stretches of runs ----------------------------------------------------------------------

  // No event is handled along the run, so no reset either.
  predicate NoneHandled(acts: seq<Action>) {
    forall i :: 0 <= i < |acts| ==> !acts[i].PumpTake?
  }

  lemma {:induction false} NoneHandledNoReset(c: Config, s: State, acts: seq<Action>)
    requires Legal(c, s, acts) && NoneHandled(acts)
    ensures NoReset(c, s, acts)
    decreases |acts|
  {
    if acts != [] {
      assert !acts[0].PumpTake?;
      NoneHandledNoReset(c, Apply(c, s, acts[0]), acts[1..]);
    }
  }

  // From the top of the loop to the awaited driver.
  lemma StartDriver(c: Config, acts: seq<Action>) returns (more: seq<Action>)
    requires Legal(c, Init(), acts)
    requires var s := Run(c, Init(), acts); s.loop.pc.Top? && !s.loop.cancelled
    ensures Legal(c, Init(), more) && (NoneHandled(acts) ==> NoneHandled(more))
    ensures var s, t := Run(c, Init(), acts), Run(c, Init(), more);
            && t.loop.pc.Join? && t.loop.driver.Live? && !t.loop.cancelled && t.loop.ticking == s.loop.ticking
            && t.loop.sends == s.loop.sends + [Running] && t.loop.drivers == s.loop.drivers + 1
            && t.loop.attempts == s.loop.attempts && t.loop.losses == s.loop.losses
            && t.inp.bridge.Selecting? && t.out.pump.Receiving? && t.out.events == [] && t.out.sending.None?
  {
    more := OneMore(c, Init(), acts, LoopNext);
    more := OneMore(c, Init(), more, LoopNext);
    more := OneMore(c, Init(), more, LoopNext);
  }

  // The driver reports its connection and the pump handles the event.
  lemma HandleConnected(c: Config, acts: seq<Action>) returns (more: seq<Action>)
    requires Legal(c, Init(), acts)
    requires var s := Run(c, Init(), acts);
             s.loop.driver.Live? && s.out.pump.Receiving? && s.out.events == [] && s.out.sending.None?
    ensures Legal(c, Init(), more)
    ensures var s, t := Run(c, Init(), acts), Run(c, Init(), more);
            t.loop == s.loop.(attempts := 0, losses := 0, starts := 0) && t.inp == s.inp
  {
    more := OneMore(c, Init(), acts, DriverEmit(Connected));
    more := OneMore(c, Init(), more, DriverSent);
    more := OneMore(c, Init(), more, PumpTake);
  }

  // The driver returns; the bridge is cancelled and awaited, the pump aborted.
  lemma EndDriver(c: Config, acts: seq<Action>, res: DriverResult) returns (more: seq<Action>)
    requires Legal(c, Init(), acts)
    requires var s := Run(c, Init(), acts); s.loop.pc.Join? && s.loop.driver.Live? && s.inp.bridge.Selecting?
    ensures Legal(c, Init(), more) && (NoneHandled(acts) ==> NoneHandled(more))
    ensures var s, t := Run(c, Init(), acts), Run(c, Init(), more);
            t.loop == s.loop.(driver := Exited(res), pc := Settle(res))
  {
    more := OneMore(c, Init(), acts, DriverExit(res));
    more := OneMore(c, Init(), more, LoopNext);
    more := OneMore(c, Init(), more, BridgeStop);
    more := OneMore(c, Init(), more, LoopNext);
    more := OneMore(c, Init(), more, LoopNext);
  }

  // ---- the loop -------------------------------------------------------------------------------

  class Runner {
    const cfg: Config
    var cell: Option<Status>
    var sends: seq<Status>
    const backoff: Backoff.BackoffCounter
    var cancelled: bool
    ghost var acts: seq<Action>  // a legal run of the step system that sends the same

    ghost predicate Valid()
      reads this, backoff
    {
      && backoff.Valid()
      && Legal(cfg, Init(), acts)
      && var l := Run(cfg, Init(), acts).loop;
         l.sends == sends && l.attempts == backoff.attempts && l.losses == backoff.losses && l.cancelled == cancelled
    }

    ghost function Pc(): Pc
      reads this, backoff
      requires Valid()
    {
      Run(cfg, Init(), acts).loop.pc
    }

    constructor (cfg: Config)
      ensures Valid() && this.cfg == cfg && fresh(backoff) && sends == [] && Pc() == Boot && !cancelled
      ensures backoff.attempts == 0
    {
      this.cfg, cell, sends, cancelled, acts := cfg, None, [], false, [];
      backoff := new Backoff.BackoffCounter();
    }

    method Send(st: Status)
      modifies this`cell, this`sends
      ensures sends == old(sends) + [st] && cell == Some(st)
    {
      sends := sends + [st];
      cell := Some(st);
    }

    // One iteration up to the driver's result.
    method RunDriver(r: Round)
      requires Valid() && Pc().Top? && !cancelled
      modifies this, backoff
      ensures Valid() && Pc() == Settle(r.result) && !cancelled
      ensures sends == old(sends) + [Running]
      ensures backoff.losses == if r.connected then 0 else old(backoff.losses)
      ensures backoff.attempts == if r.connected then 0 else old(backoff.attempts)
    {
      acts := StartDriver(cfg, acts);
      Send(Running);
      if r.connected {
        acts := HandleConnected(cfg, acts);
        backoff.Reset();
      }
      acts := EndDriver(cfg, acts, r.result);
    }

    method Finish(st: Status)
      requires Legal(cfg, Init(), acts) && backoff.Valid()
      requires var l := Run(cfg, Init(), acts).loop;
               l.pc.Done? && l.sends == sends + [st] && l.attempts == backoff.attempts && l.losses == backoff.losses
               && l.cancelled == cancelled
      modifies this`cell, this`sends
      ensures Valid() && Pc() == Done && sends == old(sends) + [st] && FinishedWord(sends) && cell == Some(st)
    {
      StatusInvariant(cfg, Init(), acts);
      Send(st);
    }

    // A lost connection is counted and announced.
    method Announce(reason: string) returns (delay: nat, attempt: nat)
      requires Valid() && Pc() == NextDelay(reason) && !cancelled
      modifies this, backoff
      ensures Valid() && Pc() == Limit(delay, attempt, reason) && !cancelled
      ensures backoff.losses == old(backoff.losses) + 1
      ensures attempt == backoff.attempts == Backoff.Bump(old(backoff.attempts))
      ensures delay == Backoff.DelaySecs(old(backoff.losses))
      ensures sends == old(sends) + [Reconnecting(attempt)]
    {
      acts := OneMore(cfg, Init(), acts, LoopNext);
      delay := backoff.NextDelay();
      attempt := backoff.Attempt();
      acts := OneMore(cfg, Init(), acts, LoopNext);
      Send(Reconnecting(attempt));
    }

    // Give up, or sleep; the sleep may be cut short.
    method GiveUpOrSleep(delay: nat, attempt: nat, r: Round) returns (finished: bool)
      requires r.result.IoLost? && Valid() && Pc() == Limit(delay, attempt, r.result.reason) && !cancelled
      modifies this
      ensures Valid() && (if finished then Pc() == Done && FinishedWord(sends) else Pc() == Top && !cancelled)
      ensures sends == old(sends) + LastWords(cfg, r, attempt)
      ensures finished == (Spent(cfg, attempt) || r.cancelInSleep)
    {
      acts := OneMore(cfg, Init(), acts, LoopNext);
      if cfg.maxAttempts.Some? && attempt > cfg.maxAttempts.value {
        Finish(Failed(RetriesExceeded(r.result.reason)));
        return true;
      }
      if r.cancelInSleep {
        acts := OneMore(cfg, Init(), acts, Cancel);
        cancelled := true;
        acts := OneMore(cfg, Init(), acts, SleepCancelled);
        Finish(Stopped);
        return true;
      }
      acts := OneMore(cfg, Init(), acts, SleepElapsed);
      return false;
    }

    method Reconnect(r: Round) returns (finished: bool)
      requires r.result.IoLost? && cfg.autoReconnect
      requires Valid() && Pc() == NextDelay(r.result.reason) && !cancelled
      modifies this, backoff
      ensures Valid() && (if finished then Pc() == Done && FinishedWord(sends) else Pc() == Top && !cancelled)
      ensures var v := Verdict(cfg, r, old(backoff.attempts));
              sends == old(sends) + v.words && finished == v.finished && backoff.attempts == v.attempts
    {
      var delay, attempt := Announce(r.result.reason);
      Associative(old(sends), [Reconnecting(attempt)], LastWords(cfg, r, attempt));
      finished := GiveUpOrSleep(delay, attempt, r);
    }

    // What the driver's result leads to.
    method Conclude(r: Round) returns (finished: bool)
      requires Valid() && Pc() == Settle(r.result) && !cancelled
      modifies this, backoff
      ensures Valid() && (if finished then Pc() == Done && FinishedWord(sends) else Pc() == Top && !cancelled)
      ensures var v := Verdict(cfg, r, old(backoff.attempts));
              sends == old(sends) + v.words && finished == v.finished && backoff.attempts == v.attempts
    {
      acts := OneMore(cfg, Init(), acts, LoopNext);
      match r.result {
        case Clean =>
          Finish(Stopped);
          return true;
        case Fatal(reason) =>
          Finish(Failed(FatalError(reason)));
          return true;
        case IoLost(reason) =>
          if !cfg.autoReconnect {
            Finish(Stopped);
            return true;
          }
          finished := Reconnect(r);
      }
    }

    // The loop over as many iterations as are given: it sends their script, which is also what a legal run
    // of the step system sends, and when it has ended the script is a word of the status language.
    method RunLoop(rounds: seq<Round>) returns (finished: bool)
      requires Valid() && Pc() == Boot && !cancelled && sends == [] && backoff.attempts == 0
      modifies this, backoff
      ensures Valid() && Outcome(sends, finished, backoff.attempts) == Script(cfg, rounds)
      ensures if finished then Pc() == Done && FinishedWord(sends) else Pc() == Top
    {
      acts := OneMore(cfg, Init(), acts, LoopNext);
      Send(Starting);
      for i := 0 to |rounds|
        invariant Valid() && Pc() == Top && !cancelled
        invariant Outcome(sends, false, backoff.attempts) == Script(cfg, rounds[..i])
      {
        ScriptNext(cfg, rounds, i);
        if rounds[i].cancelAtTop {
          acts := OneMore(cfg, Init(), acts, Cancel);
          cancelled := true;
        }
        if cancelled {
          acts := OneMore(cfg, Init(), acts, LoopNext);
          Finish(Stopped);
          return true;
        }
        RunDriver(rounds[i]);
        var done := Conclude(rounds[i]);
        if done {
          return true;
        }
      }
      assert rounds[..|rounds|] == rounds;
      return false;
    }
  }

  // ---- and nothing else is sent ---------------------------------------------------------------

  // The counter the next loss starts from: a Connected event may or may not have zeroed it.
  predicate Counter(l: Loop, o: Outcome) {
    l.attempts == o.attempts || l.attempts == 0
  }

  predicate Bumped(l: Loop, o: Outcome) {
    l.attempts == Backoff.Bump(o.attempts) || l.attempts == Backoff.Bump(0)
  }

  // The loop has sent the script of `rounds`, as far as it has got with the next iteration.
  predicate Follows(c: Config, l: Loop, rounds: seq<Round>) {
    var o := Script(c, rounds);
    if l.pc.Boot? then rounds == [] && l.sends == [] && l.attempts == 0
    else if l.pc.Done? then o.finished && l.sends == o.words
    else
      && !o.finished
      && if l.pc.Top? then l.sends == o.words && l.attempts == o.attempts
         else if l.pc.Spawned? || l.pc.Created? then l.sends == o.words && Counter(l, o)
         else if l.pc.Publish? then
           l.sends == o.words + [Running] && Bumped(l, o) && l.pc.attempt == l.attempts && c.autoReconnect
         else if l.pc.Limit? || l.pc.Sleep? then
           && l.sends == o.words + [Running] + [Reconnecting(l.attempts)] && Bumped(l, o) && c.autoReconnect
           && (if l.pc.Limit? then l.pc.attempt == l.attempts else !Spent(c, l.attempts))
         else l.sends == o.words + [Running] && Counter(l, o) && (l.pc.NextDelay? ==> c.autoReconnect)
  }

  // The iteration that ends with the driver's result, or with the wait after it.
  lemma SettleFollows(c: Config, l: Loop, rounds: seq<Round>) returns (more: seq<Round>)
    requires Follows(c, l, rounds) && l.pc.Settle?
    ensures Follows(c, SettleLoop(c, l, l.pc.result), more)
  {
    more := rounds;
    if !l.pc.result.IoLost? || !c.autoReconnect {
      var r := Round(false, false, l.pc.result, false);
      ScriptSnoc(c, rounds, r);
      more := rounds + [r];
    }
  }

  lemma LimitFollows(c: Config, l: Loop, rounds: seq<Round>) returns (more: seq<Round>)
    requires Follows(c, l, rounds) && l.pc.Limit?
    ensures Follows(c, LoopAfter(c, l), more)
  {
    more := rounds;
    if Spent(c, l.attempts) {
      var o := Script(c, rounds);
      var r := Round(false, l.attempts != Backoff.Bump(o.attempts), IoLost(l.pc.why), false);
      ScriptSnoc(c, rounds, r);
      more := rounds + [r];
      Associative(o.words + [Running], [Reconnecting(l.attempts)], [Failed(RetriesExceeded(l.pc.why))]);
    }
  }

  lemma SleepFollows(c: Config, l: Loop, rounds: seq<Round>, cancelled: bool) returns (more: seq<Round>)
    requires Follows(c, l, rounds) && l.pc.Sleep?
    ensures Follows(c, if cancelled then Finish(l, Stopped) else l.(pc := Top), more)
  {
    var o := Script(c, rounds);
    var r := Round(false, l.attempts != Backoff.Bump(o.attempts), IoLost(""), cancelled);
    ScriptSnoc(c, rounds, r);
    more := rounds + [r];
    Associative(o.words + [Running], [Reconnecting(l.attempts)], LastWords(c, r, l.attempts));
  }

  lemma LoopFollows(c: Config, l: Loop, rounds: seq<Round>) returns (more: seq<Round>)
    requires Follows(c, l, rounds) && LoopCanStep(l)
    ensures Follows(c, LoopAfter(c, l), more)
  {
    more := rounds;
    if l.pc.Top? && l.cancelled {
      var r := Round(true, false, Clean, false);
      ScriptSnoc(c, rounds, r);
      more := rounds + [r];
    } else if l.pc.Settle? {
      more := SettleFollows(c, l, rounds);
    } else if l.pc.Limit? {
      more := LimitFollows(c, l, rounds);
    }
  }

  lemma StepFollows(c: Config, s: State, a: Action, rounds: seq<Round>) returns (more: seq<Round>)
    requires Follows(c, s.loop, rounds) && PumpPhase(s) && Enabled(c, s, a)
    ensures Follows(c, Apply(c, s, a).loop, more)
  {
    more := rounds;
    if a.LoopNext? {
      more := LoopFollows(c, s.loop, rounds);
    } else if a.SleepElapsed? || a.SleepCancelled? {
      more := SleepFollows(c, s.loop, rounds, a.SleepCancelled?);
    } else if !LoopAction(a) {
      Frames(c, s, a);
    }
  }

  lemma {:induction false} RunFollows(c: Config, s: State, acts: seq<Action>, rounds: seq<Round>)
    returns (more: seq<Round>)
    requires Follows(c, s.loop, rounds) && PumpPhase(s) && Legal(c, s, acts)
    ensures Follows(c, Run(c, s, acts).loop, more)
    decreases |acts|
  {
    more := rounds;
    if acts != [] {
      more := StepFollows(c, s, acts[0], rounds);
      PumpPhaseStep(c, s, acts[0]);
      more := RunFollows(c, Apply(c, s, acts[0]), acts[1..], more);
    }
  }

  // The interleaved system refines the sequential loop: whatever the tasks, clients and drivers do, what a
  // finished loop has sent is the script of some iterations.
  lemma EveryRunIsScripted(c: Config, acts: seq<Action>) returns (rounds: seq<Round>)
    requires Legal(c, Init(), acts) && Run(c, Init(), acts).loop.pc.Done?
    ensures Script(c, rounds).finished && Script(c, rounds).words == Run(c, Init(), acts).loop.sends
  {
    rounds := RunFollows(c, Init(), acts, []);
  }

  // ---- every word of the language is sent -----------------------------------------------------

  datatype Ending = AtTop | CleanEnd | FatalEnd | GiveUpEnd

  // The word with `n` reconnects and this ending: its length and parity fix where Running stands.
  predicate WordOf(w: seq<Status>, n: nat, ending: Ending) {
    && FinishedWord(w)
    && match ending
       case AtTop => |w| == 2 * n + 2 && w[|w| - 1] == Stopped
       case GiveUpEnd => |w| == 2 * n + 2 && w[|w| - 1].Failed?
       case CleanEnd => |w| == 2 * n + 3 && w[|w| - 1] == Stopped
       case FatalEnd => |w| == 2 * n + 3 && w[|w| - 1].Failed?
  }

  // A driver is started and lost, and the loss announced.
  lemma LoseDriver(c: Config, acts: seq<Action>, connected: bool) returns (more: seq<Action>)
    requires Legal(c, Init(), acts) && c.autoReconnect
    requires var s := Run(c, Init(), acts);
             s.loop.pc.Top? && !s.loop.cancelled && s.loop.attempts < Backoff.U32_MAX
    ensures Legal(c, Init(), more) && (!connected && NoneHandled(acts) ==> NoneHandled(more))
    ensures var s, t := Run(c, Init(), acts), Run(c, Init(), more);
            && t.loop.pc.Limit? && !t.loop.cancelled && t.loop.ticking == s.loop.ticking
            && t.loop.sends == s.loop.sends + [Running] + [Reconnecting(t.loop.attempts)]
            && t.loop.drivers == s.loop.drivers + 1
            && t.loop.attempts == t.loop.pc.attempt == (if connected then 0 else s.loop.attempts) + 1
  {
    more := StartDriver(c, acts);
    if connected {
      more := HandleConnected(c, more);
    }
    more := EndDriver(c, more, IoLost(""));
    more := AnnounceLoss(c, more);
  }

  lemma AnnounceLoss(c: Config, acts: seq<Action>) returns (more: seq<Action>)
    requires Legal(c, Init(), acts) && c.autoReconnect
    requires var s := Run(c, Init(), acts); s.loop.pc == Settle(IoLost("")) && s.loop.attempts < Backoff.U32_MAX
    ensures Legal(c, Init(), more) && (NoneHandled(acts) ==> NoneHandled(more))
    ensures var s, t := Run(c, Init(), acts), Run(c, Init(), more);
            && t.loop.pc.Limit? && t.loop.pc.attempt == t.loop.attempts == s.loop.attempts + 1
            && t.loop.sends == s.loop.sends + [Reconnecting(t.loop.attempts)]
            && t.loop.cancelled == s.loop.cancelled && t.loop.ticking == s.loop.ticking
            && t.loop.drivers == s.loop.drivers
  {
    more := OneMore(c, Init(), acts, LoopNext);
    more := OneMore(c, Init(), more, LoopNext);
    more := OneMore(c, Init(), more, LoopNext);
  }

  // `n` drivers connect, are lost and are followed by a new attempt.
  lemma {:induction false} LoseDrivers(c: Config, n: nat) returns (acts: seq<Action>)
    requires c.autoReconnect && (n > 0 && c.maxAttempts.Some? ==> c.maxAttempts.value >= 1)
    ensures Legal(c, Init(), acts)
    ensures var l := Run(c, Init(), acts).loop;
            l.pc.Top? && !l.cancelled && |l.sends| == 1 + 2 * n && l.attempts == if n == 0 then 0 else 1
    decreases n
  {
    if n == 0 {
      acts := OneMore(c, Init(), [], LoopNext);
    } else {
      acts := LoseDrivers(c, n - 1);
      acts := LoseDriver(c, acts, true);
      acts := OneMore(c, Init(), acts, LoopNext);
      acts := OneMore(c, Init(), acts, SleepElapsed);
    }
  }

  // The language has no superfluous word: for every number of reconnects, every ending it allows is
  // reached by some run (a bare Failed only after a reconnect).
  lemma LanguageIsExact(n: nat, ending: Ending) returns (c: Config, acts: seq<Action>)
    requires ending.GiveUpEnd? ==> n > 0
    ensures Legal(c, Init(), acts) && Run(c, Init(), acts).loop.pc.Done?
    ensures WordOf(Run(c, Init(), acts).loop.sends, n, ending)
  {
    if ending.GiveUpEnd? {
      c, acts := GiveUpReached(n);
    } else {
      c := Config(true, None, 1, 1);
      acts := LoseDrivers(c, n);
      if ending.AtTop? {
        acts := OneMore(c, Init(), acts, Cancel);
      } else {
        acts := StartDriver(c, acts);
        acts := EndDriver(c, acts, if ending.CleanEnd? then Clean else Fatal(""));
      }
      acts := OneMore(c, Init(), acts, LoopNext);
      StatusInvariant(c, Init(), acts);
    }
  }

  lemma GiveUpReached(n: nat) returns (c: Config, acts: seq<Action>)
    requires n > 0
    ensures Legal(c, Init(), acts) && Run(c, Init(), acts).loop.pc.Done?
    ensures WordOf(Run(c, Init(), acts).loop.sends, n, GiveUpEnd)
  {
    c := Config(true, Some(if n == 1 then 0 else 1), 1, 1);
    acts := LoseDrivers(c, n - 1);
    acts := LoseDriver(c, acts, false);
    acts := OneMore(c, Init(), acts, LoopNext);
    StatusInvariant(c, Init(), acts);
  }

  // ---- concrete runs --------------------------------------------------------------------------

  // `n` drivers are lost in a row, none having connected, and the loop is ready to start the next.
  lemma {:induction false} LoseInARow(c: Config, n: nat) returns (acts: seq<Action>)
    requires c.autoReconnect && c.maxAttempts.Some? && n <= c.maxAttempts.value < Backoff.U32_MAX
    ensures Legal(c, Init(), acts) && NoneHandled(acts)
    ensures var l := Run(c, Init(), acts).loop; l.pc.Top? && !l.cancelled && l.attempts == n && l.drivers == n
    decreases n
  {
    if n == 0 {
      acts := OneMore(c, Init(), [], LoopNext);
    } else {
      acts := LoseInARow(c, n - 1);
      acts := LoseDriver(c, acts, false);
      acts := OneMore(c, Init(), acts, LoopNext);
      acts := OneMore(c, Init(), acts, SleepElapsed);
    }
  }

  // For every limit m below the u32 maximum some run without a reset creates m + 1 drivers: no smaller
  // bound holds.
  lemma RetryBoundTight(m: nat) returns (c: Config, acts: seq<Action>)
    requires m < Backoff.U32_MAX
    ensures c.maxAttempts == Some(m) && Legal(c, Init(), acts) && NoReset(c, Init(), acts)
    ensures Creations(c, Init(), acts) == m + 1 && Run(c, Init(), acts).loop.pc.Done?
  {
    c := Config(true, Some(m), 1, 1);
    acts := LoseInARow(c, m);
    acts := LoseDriver(c, acts, false);
    acts := OneMore(c, Init(), acts, LoopNext);
    NoneHandledNoReset(c, Init(), acts);
    CountersCount(c, Init(), acts);
  }

  // The ticker overwrites Reconnecting with Running.
  lemma TickHidesReconnecting() returns (c: Config, acts: seq<Action>)
    ensures Legal(c, Init(), acts)
    ensures var l := Run(c, Init(), acts).loop;
            l.sends == [Starting, Running, Reconnecting(1)] && l.cell == Some(Running)
  {
    c := Config(true, None, 1, 1);
    acts := OneMore(c, Init(), [], LoopNext);
    acts := LoseDriver(c, acts, false);
    acts := OneMore(c, Init(), acts, Tick);
  }
}
