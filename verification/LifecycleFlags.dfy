/** `launch_on_startup` over whole runs: when it says what runs, and so when a restart brings back what ran. */
module LifecycleFlags {
  import opened Wrappers
  import opened Config
  import opened Lifecycle
  import opened Startup
  import opened LifecycleRuns
  import opened LifecycleAlone
  import Names

  // ---- the exact condition --------------------------------------------------------------------

  // Has some stop cleared the flag at `key` since an entry was last filed there? `was` is the answer
  // before the step.
  predicate UnflaggedAfter(s: Sys, a: Action, key: string, was: bool) {
    if !a.Step? || !InFlight(s, a.id) then was
    else if Next(s, a.id) == Unflag(key) then true
    else if Next(s, a.id).Insert? && Names.Lower(s.ops[a.id].cfg.name) == key then false
    else was
  }

  ghost predicate UnflaggedSince(cipher: Cipher, s: Sys, acts: seq<Action>, key: string, was: bool)
    requires Legal(cipher, s, acts)
    decreases |acts|
  {
    if acts == [] then was
    else UnflaggedSince(cipher, Apply(cipher, s, acts[0]), acts[1..], key, UnflaggedAfter(s, acts[0], key, was))
  }

  predicate StoppedAt(runners: Runners, key: string) {
    key in runners && IsStopped(runners[key])
  }

  // The same from startup on, where stopped sessions are filed without their flag.
  ghost predicate Unflagged(cipher: Cipher, s0: Sys, acts: seq<Action>, key: string)
    requires Legal(cipher, s0, acts)
  {
    UnflaggedSince(cipher, s0, acts, key, StoppedAt(s0.runners, key))
  }

  predicate FlagTells(s: Sys, key: string, unflagged: bool) {
    key in s.runners ==> (s.runners[key].config.launchOnStartup <==> !unflagged)
  }

  lemma FlagStep(cipher: Cipher, s: Sys, a: Action, key: string, unflagged: bool)
    requires FlagTells(s, key, unflagged) && Enabled(s, a)
    ensures FlagTells(Apply(cipher, s, a), key, UnflaggedAfter(s, a, key, unflagged))
  {
    if a.Step? {
      RunnersMove(cipher, s, a);
    }
  }

  lemma {:induction false} FlagRun(cipher: Cipher, s: Sys, acts: seq<Action>, key: string, unflagged: bool)
    requires FlagTells(s, key, unflagged) && Legal(cipher, s, acts)
    ensures FlagTells(Run(cipher, s, acts), key, UnflaggedSince(cipher, s, acts, key, unflagged))
    decreases |acts|
  {
    if acts != [] {
      FlagStep(cipher, s, acts[0], key, unflagged);
      FlagRun(cipher, Apply(cipher, s, acts[0]), acts[1..], key, UnflaggedAfter(s, acts[0], key, unflagged));
    }
  }

  // From any startup, in every interleaving and at every moment: `launch_on_startup` is set for exactly the
  // sessions that run, if and only if the sessions whose flag was cleared since they were filed are exactly
  // the stopped ones.
  lemma FlagsAgreeIff(cipher: Cipher, s0: Sys, acts: seq<Action>)
    requires Booted(cipher, s0) && Legal(cipher, s0, acts)
    ensures var s := Run(cipher, s0, acts);
            FlagsAgree(s.runners) <==>
              forall key :: key in s.runners ==> (Unflagged(cipher, s0, acts, key) <==> IsStopped(s.runners[key]))
  {
    var s := Run(cipher, s0, acts);
    forall key | key in s.runners
      ensures s.runners[key].config.launchOnStartup <==> !Unflagged(cipher, s0, acts, key)
    {
      FlagRun(cipher, s0, acts, key, StoppedAt(s0.runners, key));
    }
  }

  // ---- when no operation is in flight ---------------------------------------------------------

  // A stop of the session at `key` has taken its handles and not cleared its flag yet.
  ghost predicate BeingStopped(s: Sys, key: string) {
    exists id :: InFlight(s, id) && (Next(s, id) == Await(key) || Next(s, id) == Unflag(key))
  }

  // No stop is abandoned in between.
  ghost predicate StopsFinish(cipher: Cipher, s: Sys, acts: seq<Action>)
    requires Legal(cipher, s, acts)
    decreases |acts|
  {
    acts == [] || (!DropsStop(s, acts[0]) && StopsFinish(cipher, Apply(cipher, s, acts[0]), acts[1..]))
  }

  predicate DropsStop(s: Sys, a: Action) {
    a.Abandon? && InFlight(s, a.id) && (Next(s, a.id).Await? || Next(s, a.id).Unflag?)
  }

  // A stopped entry carries its flag only while it is being stopped.
  ghost predicate StopsClear(s: Sys) {
    forall key :: StoppedAt(s.runners, key) && s.runners[key].config.launchOnStartup ==> BeingStopped(s, key)
  }

  lemma BeingStoppedStays(cipher: Cipher, s: Sys, a: Action, key: string)
    requires OpsInv(s) && Enabled(s, a) && BeingStopped(s, key) && !DropsStop(s, a)
    requires !(a.Step? && Next(s, a.id) == Unflag(key))
    ensures BeingStopped(Apply(cipher, s, a), key)
  {
    var t := Apply(cipher, s, a);
    var id :| InFlight(s, id) && (Next(s, id) == Await(key) || Next(s, id) == Unflag(key));
    if a.Step? {
      OnlyOneMoves(cipher, s, a);
      assert OpInv(s.ops[id]);
    }
    assert InFlight(t, id) && (Next(t, id) == Await(key) || Next(t, id) == Unflag(key));
  }

  lemma TakeStops(cipher: Cipher, s: Sys, a: Action, key: string)
    requires OpsInv(s) && a.Step? && Enabled(s, a) && Next(s, a.id) == Take(key)
    ensures BeingStopped(Apply(cipher, s, a), key)
  {
    assert OpInv(s.ops[a.id]);
    OnlyOneMoves(cipher, s, a);
    assert Next(Apply(cipher, s, a), a.id) == Await(key);
  }

  lemma StopsClearAt(cipher: Cipher, s: Sys, a: Action, key: string)
    requires OpsInv(s) && StopsClear(s) && Enabled(s, a) && !DropsStop(s, a)
    requires var t := Apply(cipher, s, a); StoppedAt(t.runners, key) && t.runners[key].config.launchOnStartup
    ensures BeingStopped(Apply(cipher, s, a), key)
  {
    if a.Step? {
      RunnersMove(cipher, s, a);
    }
    if a.Step? && Next(s, a.id) == Take(key) {
      TakeStops(cipher, s, a, key);
    } else {
      assert StoppedAt(s.runners, key) && s.runners[key].config.launchOnStartup;
      BeingStoppedStays(cipher, s, a, key);
    }
  }

  lemma {:induction false} StopsClearRun(cipher: Cipher, s: Sys, acts: seq<Action>)
    requires OpsInv(s) && WellFormed(s.runners) && StopsClear(s)
    requires Legal(cipher, s, acts) && StopsFinish(cipher, s, acts)
    ensures StopsClear(Run(cipher, s, acts))
    decreases |acts|
  {
    if acts != [] {
      var a, t := acts[0], Apply(cipher, s, acts[0]);
      OpsStep(cipher, s, a);
      WellFormedStep(cipher, s, a);
      forall key | StoppedAt(t.runners, key) && t.runners[key].config.launchOnStartup ensures BeingStopped(t, key) {
        StopsClearAt(cipher, s, a, key);
      }
      StopsClearRun(cipher, t, acts[1..]);
    }
  }

  // Whenever no operation is in flight and no stop was abandoned half-way, it comes down to this: no running
  // session had its flag cleared since its entry was filed.
  lemma QuietFlagsIff(cipher: Cipher, s0: Sys, acts: seq<Action>)
    requires Booted(cipher, s0) && Legal(cipher, s0, acts) && StopsFinish(cipher, s0, acts)
    requires Quiet(Run(cipher, s0, acts))
    ensures var s := Run(cipher, s0, acts);
            FlagsAgree(s.runners) <==>
              forall key :: RunningAt(s.runners, key) ==> !Unflagged(cipher, s0, acts, key)
  {
    var s := Run(cipher, s0, acts);
    FlagsAgreeIff(cipher, s0, acts);
    StopsClearRun(cipher, s0, acts);
    forall key | StoppedAt(s.runners, key) ensures Unflagged(cipher, s0, acts, key) {
      assert !BeingStopped(s, key);
      FlagRun(cipher, s0, acts, key, StoppedAt(s0.runners, key));
    }
    assert forall key :: key in s.runners ==> StoppedAt(s.runners, key) || RunningAt(s.runners, key);
  }

  // ---- a condition on the requests ------------------------------------------------------------

  // Neither request creates the session the other one stops.
  predicate Apart(r: Request, q: Request) {
    && (CreateKey(r).Some? ==> CreateKey(r) != StopKey(q))
    && (CreateKey(q).Some? ==> CreateKey(q) != StopKey(r))
  }

  // No create, restart or update of a session begins while a stop, delete, restart or update of the same
  // session is in flight, nor the other way round.
  ghost predicate NoOverlap(cipher: Cipher, s: Sys, acts: seq<Action>)
    requires Legal(cipher, s, acts)
    decreases |acts|
  {
    acts == [] || (
      && (acts[0].Begin? ==> forall id :: InFlight(s, id) ==> Apart(acts[0].request, s.ops[id].request))
      && NoOverlap(cipher, Apply(cipher, s, acts[0]), acts[1..]))
  }

  ghost predicate AllApart(s: Sys) {
    forall i, j :: i != j && InFlight(s, i) && InFlight(s, j) ==> Apart(s.ops[i].request, s.ops[j].request)
  }

  lemma ApartStep(cipher: Cipher, s: Sys, a: Action)
    requires AllApart(s) && Enabled(s, a)
    requires a.Begin? ==> forall id :: InFlight(s, id) ==> Apart(a.request, s.ops[id].request)
    ensures AllApart(Apply(cipher, s, a))
  {
    var t := Apply(cipher, s, a);
    if a.Step? {
      OnlyOneMoves(cipher, s, a);
    }
    forall i, j | i != j && InFlight(t, i) && InFlight(t, j) ensures Apart(t.ops[i].request, t.ops[j].request) {
      assert a.Begin? || (InFlight(s, i) && InFlight(s, j));
      assert a.Begin? && i != a.id && j != a.id ==> InFlight(s, i) && InFlight(s, j);
      assert a.Begin? && j == a.id ==> InFlight(s, i);
      assert a.Begin? && i == a.id ==> InFlight(s, j);
    }
  }

  // The session between a stop's Take and its Unflag stays stopped.
  ghost predicate Undisturbed(s: Sys) {
    forall id :: InFlight(s, id) && (Next(s, id).Await? || Next(s, id).Unflag?) ==>
      !RunningAt(s.runners, Next(s, id).key)
  }

  // Only filing an entry starts a session.
  lemma OnlyInsertStarts(cipher: Cipher, s: Sys, a: Action, key: string)
    requires OpsInv(s) && Enabled(s, a) && RunningAt(Apply(cipher, s, a).runners, key)
    ensures RunningAt(s.runners, key) ||
            (a.Step? && Next(s, a.id).Insert? && CreateKey(s.ops[a.id].request) == Some(key))
  {
    if a.Step? {
      OnlyOneMoves(cipher, s, a);
      assert OpInv(s.ops[a.id]);
    }
  }

  // The operation's own step has just stopped the session, or found it stopped.
  lemma UndisturbedOwn(cipher: Cipher, s: Sys, a: Action)
    requires OpsInv(s) && Undisturbed(s) && a.Step? && Enabled(s, a)
    requires var t := Apply(cipher, s, a); InFlight(t, a.id) && (Next(t, a.id).Await? || Next(t, a.id).Unflag?)
    ensures !RunningAt(Apply(cipher, s, a).runners, Next(Apply(cipher, s, a), a.id).key)
  {
    OnlyOneMoves(cipher, s, a);
    assert OpInv(s.ops[a.id]);
    assert MayPrecede(Next(s, a.id), s.ops[a.id].todo[1..]);
    assert Next(s, a.id).Take? || Next(s, a.id).Await?;
  }

  lemma UndisturbedOther(cipher: Cipher, s: Sys, a: Action, id: nat)
    requires OpsInv(s) && AllApart(s) && Undisturbed(s) && Enabled(s, a) && (a.Ends? || id != a.id)
    requires var t := Apply(cipher, s, a); InFlight(t, id) && (Next(t, id).Await? || Next(t, id).Unflag?)
    ensures !RunningAt(Apply(cipher, s, a).runners, Next(Apply(cipher, s, a), id).key)
  {
    if a.Step? {
      OnlyOneMoves(cipher, s, a);
      assert Apart(s.ops[id].request, s.ops[a.id].request);
    }
    assert InFlight(s, id) && OpInv(s.ops[id]);
    var key := Next(s, id).key;
    if RunningAt(Apply(cipher, s, a).runners, key) {
      OnlyInsertStarts(cipher, s, a, key);
    }
  }

  lemma UndisturbedStep(cipher: Cipher, s: Sys, a: Action)
    requires OpsInv(s) && AllApart(s) && Undisturbed(s) && Enabled(s, a)
    ensures Undisturbed(Apply(cipher, s, a))
  {
    var t := Apply(cipher, s, a);
    forall id | InFlight(t, id) && (Next(t, id).Await? || Next(t, id).Unflag?)
      ensures !RunningAt(t.runners, Next(t, id).key)
    {
      if a.Step? && id == a.id {
        UndisturbedOwn(cipher, s, a);
      } else if a.Begin? && id == a.id {
        ProgramDisciplined(a.request);
      } else {
        UndisturbedOther(cipher, s, a, id);
      }
    }
  }

  // So no stop clears the flag of a running session.
  lemma UnflaggedNotRunning(cipher: Cipher, s: Sys, a: Action, key: string, was: bool)
    requires OpsInv(s) && Undisturbed(s) && Enabled(s, a) && (was ==> !RunningAt(s.runners, key))
    ensures UnflaggedAfter(s, a, key, was) ==> !RunningAt(Apply(cipher, s, a).runners, key)
  {
    if RunningAt(Apply(cipher, s, a).runners, key) {
      OnlyInsertStarts(cipher, s, a, key);
      if a.Step? {
        assert OpInv(s.ops[a.id]);
        if Next(s, a.id) == Unflag(key) {
          OnlyOneMoves(cipher, s, a);
        }
      }
    }
  }

  lemma {:induction false} NoOverlapRun(cipher: Cipher, s: Sys, acts: seq<Action>, key: string, was: bool)
    requires OpsInv(s) && WellFormed(s.runners) && AllApart(s) && Undisturbed(s)
    requires was ==> !RunningAt(s.runners, key)
    requires Legal(cipher, s, acts) && NoOverlap(cipher, s, acts)
    ensures UnflaggedSince(cipher, s, acts, key, was) ==> !RunningAt(Run(cipher, s, acts).runners, key)
    decreases |acts|
  {
    if acts != [] {
      OpsStep(cipher, s, acts[0]);
      WellFormedStep(cipher, s, acts[0]);
      ApartStep(cipher, s, acts[0]);
      UndisturbedStep(cipher, s, acts[0]);
      UnflaggedNotRunning(cipher, s, acts[0], key, was);
      NoOverlapRun(cipher, Apply(cipher, s, acts[0]), acts[1..], key, UnflaggedAfter(s, acts[0], key, was));
    }
  }

  // From any startup: as long as no request creates a session while another one that stops it is in
  // flight, and no stop is abandoned half-way, the flags say what runs whenever no operation is in flight.
  lemma NoOverlapKeepsFlags(cipher: Cipher, s0: Sys, acts: seq<Action>)
    requires Booted(cipher, s0) && Legal(cipher, s0, acts)
    requires NoOverlap(cipher, s0, acts) && StopsFinish(cipher, s0, acts) && Quiet(Run(cipher, s0, acts))
    ensures FlagsAgree(Run(cipher, s0, acts).runners)
  {
    forall key | RunningAt(Run(cipher, s0, acts).runners, key) ensures !Unflagged(cipher, s0, acts, key) {
      NoOverlapRun(cipher, s0, acts, key, StoppedAt(s0.runners, key));
    }
    QuietFlagsIff(cipher, s0, acts);
  }

  // Operations begin only when none is in flight.
  ghost predicate Sequential(cipher: Cipher, s: Sys, acts: seq<Action>)
    requires Legal(cipher, s, acts)
    decreases |acts|
  {
    acts == [] || ((acts[0].Begin? ==> Quiet(s)) && Sequential(cipher, Apply(cipher, s, acts[0]), acts[1..]))
  }

  lemma {:induction false} SequentialNoOverlap(cipher: Cipher, s: Sys, acts: seq<Action>)
    requires Legal(cipher, s, acts) && Sequential(cipher, s, acts)
    ensures NoOverlap(cipher, s, acts)
    decreases |acts|
  {
    if acts != [] {
      SequentialNoOverlap(cipher, Apply(cipher, s, acts[0]), acts[1..]);
    }
  }

  lemma SequentialFlags(cipher: Cipher, s0: Sys, acts: seq<Action>)
    requires Booted(cipher, s0) && Legal(cipher, s0, acts)
    requires Sequential(cipher, s0, acts) && StopsFinish(cipher, s0, acts) && Quiet(Run(cipher, s0, acts))
    ensures FlagsAgree(Run(cipher, s0, acts).runners)
  {
    SequentialNoOverlap(cipher, s0, acts);
    NoOverlapKeepsFlags(cipher, s0, acts);
  }

  // ---- restarting the application -------------------------------------------------------------

  // The state startup makes of a file.
  function BootFrom(cipher: Cipher, file: Option<seq<SessionConfig>>): Sys {
    var st := StartedFrom(Load(cipher, file));
    Sys(st.runners, file, st.live, st.next, map[])
  }

  // From any startup, after any run and at any moment: a restart of the application brings back the same
  // keys, configurations and shapes, no name stored twice, if and only if the flags agree with what runs
  // and the file with the configurations. Both conditions are given exactly above.
  lemma RestartRestoresIff(cipher: Cipher, s0: Sys, acts: seq<Action>)
    requires Booted(cipher, s0) && Legal(cipher, s0, acts)
    ensures var s := Run(cipher, s0, acts);
            FlagsAgree(s.runners) && Agrees(cipher, s.file, s.runners) <==>
              && AllStartable(Load(cipher, s.file)) && DistinctNames(Load(cipher, s.file))
              && SameSessions(BootFrom(cipher, s.file).runners, s.runners)
  {
    var s := Run(cipher, s0, acts);
    ShapesAlways(cipher, s0, acts);
    StartedIsRebuilt(Load(cipher, s.file));
    ReloadIff(cipher, s.file, s.runners, BootFrom(cipher, s.file).runners);
  }

  // One lifetime of the application that does nothing to spoil the next: no overlap, no stop abandoned
  // half-way, no save missed, no operation in flight at its end.
  ghost predicate GoodLife(cipher: Cipher, s0: Sys, acts: seq<Action>)
    requires Legal(cipher, s0, acts)
  {
    && NoOverlap(cipher, s0, acts) && StopsFinish(cipher, s0, acts) && !MissedSince(cipher, s0, acts, false)
    && Quiet(Run(cipher, s0, acts))
  }

  // It is brought back by the next launch, to a state from which the same can be said again.
  lemma ReloadRestores(cipher: Cipher, s0: Sys, acts: seq<Action>)
    requires Inverse(cipher) && Booted(cipher, s0) && DistinctNames(Load(cipher, s0.file))
    requires Legal(cipher, s0, acts) && GoodLife(cipher, s0, acts)
    ensures var s := Run(cipher, s0, acts);
            && AllStartable(Load(cipher, s.file)) && DistinctNames(Load(cipher, s.file))
            && Booted(cipher, BootFrom(cipher, s.file))
            && SameSessions(BootFrom(cipher, s.file).runners, s.runners)
  {
    NoOverlapKeepsFlags(cipher, s0, acts);
    SavedAgreement(cipher, s0, acts);
    RestartRestoresIff(cipher, s0, acts);
    StartupBoots(cipher, Run(cipher, s0, acts).file);
  }

  // The application is launched again and again; each launch begins with the file the last one left.
  ghost predicate Lives(cipher: Cipher, file: Option<seq<SessionConfig>>, lives: seq<seq<Action>>)
    decreases |lives|
  {
    if lives == [] then true
    else
      var s0 := BootFrom(cipher, file);
      && Legal(cipher, s0, lives[0]) && GoodLife(cipher, s0, lives[0])
      && Lives(cipher, Run(cipher, s0, lives[0]).file, lives[1..])
  }

  // Every launch but the first brings back the sessions that the one before it ended with.
  ghost predicate Restored(cipher: Cipher, file: Option<seq<SessionConfig>>, lives: seq<seq<Action>>)
    requires Lives(cipher, file, lives)
    decreases |lives|
  {
    if lives == [] then true
    else
      var s := Run(cipher, BootFrom(cipher, file), lives[0]);
      && AllStartable(Load(cipher, s.file)) && SameSessions(BootFrom(cipher, s.file).runners, s.runners)
      && Restored(cipher, s.file, lives[1..])
  }

  lemma {:induction false} EveryLaunchRestores(cipher: Cipher, file: Option<seq<SessionConfig>>,
                                               lives: seq<seq<Action>>)
    requires Inverse(cipher) && AllStartable(Load(cipher, file)) && DistinctNames(Load(cipher, file))
    requires Lives(cipher, file, lives)
    ensures Restored(cipher, file, lives)
    decreases |lives|
  {
    if lives != [] {
      StartupBoots(cipher, file);
      ReloadRestores(cipher, BootFrom(cipher, file), lives[0]);
      EveryLaunchRestores(cipher, Run(cipher, BootFrom(cipher, file), lives[0]).file, lives[1..]);
    }
  }

  // ---- what overlapping breaks ----------------------------------------------------------------

  // A fresh installation.
  function Fresh(): Sys {
    Sys(map[], None, {}, 0, map[])
  }

  function Proxy(): SessionConfig {
    NoConfig().(name := "a", upstream := HttpProxy("", "", ""))
  }

  lemma CreateOvertakesStop(cipher: Cipher) returns (acts: seq<Action>)
    ensures Legal(cipher, Fresh(), acts) && AllSaved(acts)
    ensures var s := Run(cipher, Fresh(), acts);
            && s.runners.Keys == {"a"} && s.runners["a"].proxyCancel.Some?
            && s.ops.Keys == {0, 1} && s.ops[0].todo == [Unflag("a"), Persist] && s.ops[1].todo == []
  {
    assert Names.Lower("a") == "a";
    acts := StopTakes(cipher, Fresh(), [], 0, "a");
    acts := NextStep(cipher, Fresh(), acts, 0, true, true);
    assert Run(cipher, Fresh(), acts).ops[0].todo == [Unflag("a"), Persist];
    acts := CreateAlone(cipher, Fresh(), acts, 1, Proxy(), true, true);
  }

  lemma ThenItUnflags(cipher: Cipher) returns (acts: seq<Action>)
    ensures Legal(cipher, Fresh(), acts) && AllSaved(acts)
    ensures var s := Run(cipher, Fresh(), acts);
            && "a" in s.runners && s.runners["a"].proxyCancel.Some? && !s.runners["a"].config.launchOnStartup
            && s.ops.Keys == {0, 1} && s.ops[0].todo == [Persist] && s.ops[1].todo == []
  {
    acts := CreateOvertakesStop(cipher);
    acts := NextStep(cipher, Fresh(), acts, 0, true, true);
  }

  lemma ThenItSaves(cipher: Cipher) returns (acts: seq<Action>)
    ensures Legal(cipher, Fresh(), acts) && AllSaved(acts)
    ensures var s := Run(cipher, Fresh(), acts);
            && "a" in s.runners && s.runners["a"].proxyCancel.Some? && !s.runners["a"].config.launchOnStartup
            && s.ops.Keys == {0, 1} && s.ops[0].todo == [] && s.ops[1].todo == []
  {
    acts := ThenItUnflags(cipher);
    acts := PersistStep(cipher, Fresh(), acts, 0, [], true);
  }

  lemma RunningUnflagged(runners: Runners, key: string)
    requires key in runners && !IsStopped(runners[key]) && !runners[key].config.launchOnStartup
    ensures !FlagsAgree(runners)
  {
  }

  // A create that runs while a stop of the same session waits for its tasks ends with a running session
  // that the stop's last step marks as not to be launched: after all operations have finished, the flags
  // do not agree.
  lemma StopOverlappingCreate(cipher: Cipher) returns (acts: seq<Action>)
    ensures Booted(cipher, Fresh()) && Legal(cipher, Fresh(), acts) && AllSaved(acts)
    ensures Quiet(Run(cipher, Fresh(), acts)) && !FlagsAgree(Run(cipher, Fresh(), acts).runners)
  {
    acts := ThenItSaves(cipher);
    RunningUnflagged(Run(cipher, Fresh(), acts).runners, "a");
  }

  // A stop abandoned while it waits leaves a stopped session that is launched again.
  lemma AbandonedStop(cipher: Cipher) returns (acts: seq<Action>)
    ensures Booted(cipher, Fresh()) && Legal(cipher, Fresh(), acts)
    ensures Quiet(Run(cipher, Fresh(), acts)) && !FlagsAgree(Run(cipher, Fresh(), acts).runners)
  {
    assert Names.Lower("a") == "a";
    acts := CreateAlone(cipher, Fresh(), [], 1, Proxy(), true, true);
    acts := StopTakes(cipher, Fresh(), acts, 0, "a");
    RunExtend(cipher, Fresh(), acts, Abandon(0));
    acts := acts + [Abandon(0)];
    assert StoppedAt(Run(cipher, Fresh(), acts).runners, "a");
  }
}
