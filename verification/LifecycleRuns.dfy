/**
 * The operations of app_logic.rs interleaved: each is a list of steps, one for every time it takes the lock
 * on the runner map, starts or awaits tasks, or saves. Any number of operations may be in flight. Runs
 * begin where the application has started up from any stored file.
 */
module LifecycleRuns {
  import opened Wrappers
  import opened Config
  import opened Lifecycle
  import opened Startup
  import Names

  datatype Micro =
    | ReadConfig(key: string)    // restart: copy the configuration, or give up
    | ReadPassword(key: string)  // update: an empty password keeps the old one
    | Fire(key: string)          // stop: cancel the tasks
    | Take(key: string)          // stop: take the handles out of the entry
    | Await(key: string)         // stop: wait for the tasks whose handles were taken
    | Unflag(key: string)        // stop: launch_on_startup = false
    | Remove(key: string)        // delete
    | Start                      // create: start the tasks, or give up
    | Insert                     // create: file the entry
    | Persist

  datatype Request =
    | Create(cfg: SessionConfig)
    | Stop(name: string)
    | Delete(name: string)
    | Restart(name: string)
    | Update(oldName: string, cfg: SessionConfig)

  // The key a request stops, and the key it creates a session under.
  function StopKey(r: Request): Option<string> {
    match r
    case Create(_) => None
    case Stop(name) => Some(Names.Lower(name))
    case Delete(name) => Some(Names.Lower(name))
    case Restart(name) => Some(Names.Lower(name))
    case Update(name, _) => Some(Names.Lower(name))
  }

  function CreateKey(r: Request): Option<string> {
    match r
    case Create(cfg) => Some(Names.Lower(cfg.name))
    case Stop(_) => None
    case Delete(_) => None
    case Restart(name) => Some(Names.Lower(name))
    case Update(_, cfg) => Some(Names.Lower(cfg.name))
  }

  // The steps of a stop, then `rest`.
  function StopThen(key: string, rest: seq<Micro>): seq<Micro> {
    [Fire(key)] + ([Take(key)] + ([Await(key)] + ([Unflag(key)] + ([Persist] + rest))))
  }

  function CreateSteps(): seq<Micro> {
    [Start] + ([Insert] + ([Persist] + []))
  }

  function Program(r: Request): seq<Micro> {
    match r
    case Create(_) => CreateSteps()
    case Stop(name) => StopThen(Names.Lower(name), [])
    case Delete(name) => StopThen(Names.Lower(name), [Remove(Names.Lower(name))] + ([Persist] + []))
    case Restart(name) => [ReadConfig(Names.Lower(name))] + StopThen(Names.Lower(name), CreateSteps())
    case Update(name, _) => [ReadPassword(Names.Lower(name))] + StopThen(Names.Lower(name), CreateSteps())
  }

  // An operation: the steps left, the configuration it works on, the tokens of the tasks it started, the
  // tokens of the tasks whose handles it took.
  datatype Op = Op(request: Request, todo: seq<Micro>, cfg: SessionConfig, first: nat, held: set<nat>)

  datatype Sys = Sys(runners: Runners, file: Option<seq<SessionConfig>>, live: set<nat>, next: nat, ops: map<nat, Op>)

  // `bindOk`: the listen address is free; `saveOk`: the file is written; `order`: how the hash map is
  // listed. An operation may be abandoned at any point, when the connection that asked for it goes away. A
  // task may also end by itself.
  datatype Action =
    | Begin(id: nat, request: Request)
    | Step(id: nat, bindOk: bool, saveOk: bool, order: seq<string>)
    | Abandon(id: nat)
    | Ends(token: nat)

  function NewOp(r: Request): Op {
    Op(r, Program(r), if r.Create? || r.Update? then r.cfg else NoConfig(), 0, {})
  }

  predicate InFlight(s: Sys, id: nat) {
    id in s.ops && s.ops[id].todo != []
  }

  // What an operation in flight does next.
  function Next(s: Sys, id: nat): Micro
    requires InFlight(s, id)
  {
    s.ops[id].todo[0]
  }

  ghost predicate Enabled(s: Sys, a: Action) {
    match a
    case Begin(id, _) => id !in s.ops
    case Step(id, _, _, order) =>
      && InFlight(s, id)
      && (Next(s, id).Persist? ==> IsOrder(order, s.runners.Keys))
      && (Next(s, id).Await? ==> s.ops[id].held !! s.live)
    case Abandon(id) => InFlight(s, id)
    case Ends(token) => token in s.live
  }

  // The operation's next step succeeds and changes nothing but the operation itself.
  function Proceed(s: Sys, id: nat, op: Op): Sys
    requires op.todo != []
  {
    s.(ops := s.ops[id := op.(todo := op.todo[1..])])
  }

  // The operation returns with an error, or is not heard of again.
  function GiveUp(s: Sys, id: nat, op: Op): Sys {
    s.(ops := s.ops[id := op.(todo := [])])
  }

  function StartTasks(s: Sys, id: nat, op: Op, bindOk: bool): Sys
    requires op.todo != []
  {
    var outcome := LaunchOutcome(op.cfg, bindOk);
    var t := s.(live := s.live + LaunchTokens(op.cfg, outcome, s.next), next := s.next + 2);
    if outcome.Launched? then Proceed(t, id, op.(first := s.next)) else GiveUp(t, id, op)
  }

  // The tasks whose handles a stop takes and awaits; a proxy has no handle.
  function HeldAt(runners: Runners, key: string): set<nat> {
    if key in runners then OptSet(runners[key].started) + OptSet(runners[key].sshdCancel) else {}
  }

  // The runner map after an operation's next step.
  function RunnersAfter(s: Sys, id: nat): Runners
    requires InFlight(s, id)
  {
    match Next(s, id)
    case Take(key) => Taken(s.runners, key)
    case Unflag(key) => Unflagged(s.runners, key)
    case Remove(key) => s.runners - {key}
    case Insert => Inserted(s.runners, s.ops[id].cfg, s.ops[id].first)
    case _ => s.runners
  }

  ghost function OpStep(cipher: Cipher, s: Sys, id: nat, bindOk: bool, saveOk: bool, order: seq<string>): Sys
    requires Enabled(s, Step(id, bindOk, saveOk, order))
  {
    var op := s.ops[id];
    match op.todo[0]
    case ReadConfig(key) =>
      if key in s.runners then Proceed(s, id, op.(cfg := s.runners[key].config)) else GiveUp(s, id, op)
    case ReadPassword(key) =>
      if op.cfg.password == "" && key in s.runners then
        Proceed(s, id, op.(cfg := op.cfg.(password := s.runners[key].config.password)))
      else Proceed(s, id, op)
    case Fire(key) => Proceed(s.(live := s.live - TokensAt(s.runners, key)), id, op)
    case Take(key) =>
      Proceed(s.(runners := Taken(s.runners, key)), id, op.(held := HeldAt(s.runners, key)))
    case Await(key) => Proceed(s, id, op)
    case Unflag(key) => Proceed(s.(runners := Unflagged(s.runners, key)), id, op)
    case Remove(key) => Proceed(s.(runners := s.runners - {key}), id, op)
    case Start => StartTasks(s, id, op, bindOk)
    case Insert => Proceed(s.(runners := Inserted(s.runners, op.cfg, op.first)), id, op)
    case Persist =>
      if saveOk then Proceed(s.(file := Some(MapAll(cipher.encrypt, Listing(order, s.runners)))), id, op)
      else GiveUp(s, id, op)
  }

  ghost function Apply(cipher: Cipher, s: Sys, a: Action): Sys
    requires Enabled(s, a)
  {
    match a
    case Begin(id, request) => s.(ops := s.ops[id := NewOp(request)])
    case Step(id, bindOk, saveOk, order) => OpStep(cipher, s, id, bindOk, saveOk, order)
    case Abandon(id) => GiveUp(s, id, s.ops[id])
    case Ends(token) => s.(live := s.live - {token})
  }

  ghost predicate Legal(cipher: Cipher, s: Sys, acts: seq<Action>)
    decreases |acts|
  {
    acts == [] || (Enabled(s, acts[0]) && Legal(cipher, Apply(cipher, s, acts[0]), acts[1..]))
  }

  ghost function Run(cipher: Cipher, s: Sys, acts: seq<Action>): Sys
    requires Legal(cipher, s, acts)
    decreases |acts|
  {
    if acts == [] then s else Run(cipher, Apply(cipher, s, acts[0]), acts[1..])
  }

  lemma {:induction false} RunExtend(cipher: Cipher, s: Sys, acts: seq<Action>, a: Action)
    requires Legal(cipher, s, acts) && Enabled(Run(cipher, s, acts), a)
    ensures Legal(cipher, s, acts + [a]) && Run(cipher, s, acts + [a]) == Apply(cipher, Run(cipher, s, acts), a)
    decreases |acts|
  {
    if acts == [] {
      assert [] + [a] == [a] && [a][1..] == [];
      assert Legal(cipher, Apply(cipher, s, a), []);
    } else {
      assert (acts + [a])[0] == acts[0] && (acts + [a])[1..] == acts[1..] + [a];
      RunExtend(cipher, Apply(cipher, s, acts[0]), acts[1..], a);
    }
  }

  // The application has started up from its stored file, and no operation has begun.
  ghost predicate Booted(cipher: Cipher, s: Sys) {
    && s.ops == map[]
    && AllStartable(Load(cipher, s.file)) && Rebuilt(s.runners, Load(cipher, s.file))
    && Sound(s.runners, s.live, s.next)
  }

  // The startup loop leaves such a state, whatever the file, provided all of it can be started.
  lemma StartupBoots(cipher: Cipher, file: Option<seq<SessionConfig>>)
    requires AllStartable(Load(cipher, file))
    ensures var st := StartedFrom(Load(cipher, file)); Booted(cipher, Sys(st.runners, file, st.live, st.next, map[]))
  {
    StartedIsSound(Load(cipher, file));
    StartedIsRebuilt(Load(cipher, file));
  }

  ghost predicate Quiet(s: Sys) {
    forall id :: !InFlight(s, id)
  }

  // No save fails and no operation is abandoned.
  predicate AllSaved(acts: seq<Action>) {
    forall i :: 0 <= i < |acts| ==> !acts[i].Abandon? && (acts[i].Step? ==> acts[i].saveOk)
  }

  lemma {:induction false} NoneMissed(cipher: Cipher, s: Sys, acts: seq<Action>)
    requires Legal(cipher, s, acts) && AllSaved(acts)
    ensures !MissedSince(cipher, s, acts, false)
    decreases |acts|
  {
    if acts != [] {
      assert !acts[0].Abandon? && (acts[0].Step? ==> acts[0].saveOk) && AllSaved(acts[1..]);
      NoneMissed(cipher, Apply(cipher, s, acts[0]), acts[1..]);
    }
  }

  // ---- the order of steps ---------------------------------------------------------------------

  predicate ChangesConfigs(m: Micro) {
    m.Unflag? || m.Remove? || m.Insert?
  }

  predicate Reads(m: Micro) {
    m.ReadConfig? || m.ReadPassword?
  }

  // A step belongs to its request.
  predicate Fits(m: Micro, r: Request) {
    match m
    case ReadConfig(key) => r.Restart? && CreateKey(r) == Some(key)
    case ReadPassword(key) => r.Update? && StopKey(r) == Some(key)
    case Fire(key) => StopKey(r) == Some(key)
    case Take(key) => StopKey(r) == Some(key)
    case Await(key) => StopKey(r) == Some(key)
    case Unflag(key) => StopKey(r) == Some(key)
    case Remove(key) => r.Delete? && StopKey(r) == Some(key)
    case Start => CreateKey(r).Some?
    case Insert => CreateKey(r).Some?
    case Persist => true
  }

  // Does the operation still have to take the handles, or to file the entry?
  predicate WillTake(todo: seq<Micro>) {
    todo != [] && (todo[0].Take? || WillTake(todo[1..]))
  }

  predicate WillInsert(todo: seq<Micro>) {
    todo != [] && (todo[0].Insert? || WillInsert(todo[1..]))
  }

  // What may stand right after a step: every change of a configuration is followed by a save, every start
  // by the filing of the entry; handles are taken once, right after the tasks were cancelled, and then the
  // tasks are awaited and the flag is cleared.
  predicate MayPrecede(m: Micro, rest: seq<Micro>) {
    && (m.Take? || m.Start? || m.Insert? || m.Remove? ==> !WillTake(rest))
    && (m.Insert? ==> !WillInsert(rest))
    && if rest == [] then m.Persist?
       else
         var n := rest[0];
         && !Reads(n)
         && (ChangesConfigs(m) ==> n.Persist?)
         && (n.Insert? <==> m.Start?)
         && (if m.Fire? then n == Take(m.key) else !n.Take?)
         && (if m.Take? then n == Await(m.key) else !n.Await?)
         && (if m.Await? then n == Unflag(m.key) else !n.Unflag?)
  }

  predicate Disciplined(todo: seq<Micro>, r: Request) {
    todo == [] || (Fits(todo[0], r) && MayPrecede(todo[0], todo[1..]) && Disciplined(todo[1..], r))
  }

  // The configuration is the one to be filed, from the first step after the reads on.
  predicate OpInv(op: Op) {
    && Disciplined(op.todo, op.request)
    && (op.todo != [] && CreateKey(op.request).Some? && !op.todo[0].ReadConfig? ==>
          Names.Lower(op.cfg.name) == CreateKey(op.request).value)
    && (op.todo != [] && op.todo[0].Insert? ==> LaunchOutcome(op.cfg, true).Launched?)
  }

  predicate OpsInv(s: Sys) {
    forall id :: id in s.ops ==> OpInv(s.ops[id])
  }

  lemma ConsDisciplined(m: Micro, rest: seq<Micro>, r: Request)
    requires Fits(m, r) && MayPrecede(m, rest) && Disciplined(rest, r)
    ensures Disciplined([m] + rest, r)
    ensures WillTake([m] + rest) <==> m.Take? || WillTake(rest)
    ensures WillInsert([m] + rest) <==> m.Insert? || WillInsert(rest)
  {
    assert ([m] + rest)[1..] == rest;
  }

  lemma StopDisciplined(key: string, rest: seq<Micro>, r: Request)
    requires StopKey(r) == Some(key) && Disciplined(rest, r) && MayPrecede(Persist, rest) && !WillTake(rest)
    ensures Disciplined(StopThen(key, rest), r) && StopThen(key, rest)[0].Fire?
    ensures WillTake(StopThen(key, rest)) && (WillInsert(StopThen(key, rest)) <==> WillInsert(rest))
  {
    ConsDisciplined(Persist, rest, r);
    ConsDisciplined(Unflag(key), [Persist] + rest, r);
    ConsDisciplined(Await(key), [Unflag(key)] + ([Persist] + rest), r);
    ConsDisciplined(Take(key), [Await(key)] + ([Unflag(key)] + ([Persist] + rest)), r);
    ConsDisciplined(Fire(key), [Take(key)] + ([Await(key)] + ([Unflag(key)] + ([Persist] + rest))), r);
  }

  lemma CreateDisciplined(r: Request)
    requires CreateKey(r).Some?
    ensures Disciplined(CreateSteps(), r) && CreateSteps()[0].Start?
    ensures !WillTake(CreateSteps()) && WillInsert(CreateSteps())
  {
    ConsDisciplined(Persist, [], r);
    ConsDisciplined(Insert, [Persist] + [], r);
    ConsDisciplined(Start, [Insert] + ([Persist] + []), r);
  }

  predicate MayBegin(m: Micro) {
    Reads(m) || m.Fire? || m.Start?
  }

  lemma ProgramDisciplined(r: Request)
    ensures var p := Program(r);
            && p != [] && Disciplined(p, r) && MayBegin(p[0]) && (p[0].ReadConfig? <==> r.Restart?)
            && (WillTake(p) <==> StopKey(r).Some?) && (WillInsert(p) <==> CreateKey(r).Some?)
  {
    match r
    case Create(_) => CreateDisciplined(r);
    case Stop(name) => StopDisciplined(Names.Lower(name), [], r);
    case Delete(name) =>
      ConsDisciplined(Persist, [], r);
      ConsDisciplined(Remove(Names.Lower(name)), [Persist] + [], r);
      StopDisciplined(Names.Lower(name), [Remove(Names.Lower(name))] + ([Persist] + []), r);
    case Restart(name) =>
      CreateDisciplined(r);
      StopDisciplined(Names.Lower(name), CreateSteps(), r);
      ConsDisciplined(ReadConfig(Names.Lower(name)), StopThen(Names.Lower(name), CreateSteps()), r);
    case Update(name, _) =>
      CreateDisciplined(r);
      StopDisciplined(Names.Lower(name), CreateSteps(), r);
      ConsDisciplined(ReadPassword(Names.Lower(name)), StopThen(Names.Lower(name), CreateSteps()), r);
  }

  lemma RunnersMove(cipher: Cipher, s: Sys, a: Action)
    requires a.Step? && Enabled(s, a)
    ensures Apply(cipher, s, a).runners == RunnersAfter(s, a.id)
  {
  }

  // A step moves its own operation, by one or to its end, and leaves every other one where it was.
  lemma OnlyOneMoves(cipher: Cipher, s: Sys, a: Action)
    requires a.Step? && Enabled(s, a)
    ensures var op, t := s.ops[a.id], Apply(cipher, s, a);
            && t.ops == s.ops[a.id := t.ops[a.id]] && t.ops[a.id].request == op.request
            && (t.ops[a.id].todo == op.todo[1..] || t.ops[a.id].todo == [])
            && (op.todo[0].Take? || op.todo[0].Await? || op.todo[0].Fire? ==> t.ops[a.id].todo == op.todo[1..])
            && t.runners == RunnersAfter(s, a.id)
  {
    RunnersMove(cipher, s, a);
  }

  lemma OpMoves(cipher: Cipher, s: Sys, a: Action)
    requires a.Step? && Enabled(s, a) && OpsInv(s) && WellFormed(s.runners)
    ensures OpInv(Apply(cipher, s, a).ops[a.id])
  {
    assert OpInv(s.ops[a.id]);
  }

  lemma OpsStep(cipher: Cipher, s: Sys, a: Action)
    requires OpsInv(s) && WellFormed(s.runners) && Enabled(s, a)
    ensures OpsInv(Apply(cipher, s, a))
  {
    if a.Begin? {
      ProgramDisciplined(a.request);
    } else if a.Step? {
      OpMoves(cipher, s, a);
      OnlyOneMoves(cipher, s, a);
    }
  }

  lemma WellFormedStep(cipher: Cipher, s: Sys, a: Action)
    requires OpsInv(s) && WellFormed(s.runners) && Enabled(s, a)
    ensures WellFormed(Apply(cipher, s, a).runners)
  {
    if a.Step? {
      var op, m := s.ops[a.id], Next(s, a.id);
      OnlyOneMoves(cipher, s, a);
      StepsKeepWellFormed(s.runners, if m.Take? || m.Unflag? || m.Remove? then m.key else "", op.cfg, op.first);
    }
  }

  lemma {:induction false} WellFormedRun(cipher: Cipher, s: Sys, acts: seq<Action>)
    requires OpsInv(s) && WellFormed(s.runners) && Legal(cipher, s, acts)
    ensures OpsInv(Run(cipher, s, acts)) && WellFormed(Run(cipher, s, acts).runners)
    decreases |acts|
  {
    if acts != [] {
      OpsStep(cipher, s, acts[0]);
      WellFormedStep(cipher, s, acts[0]);
      WellFormedRun(cipher, Apply(cipher, s, acts[0]), acts[1..]);
    }
  }

  // From any startup, in every interleaving, saves failing or not, every entry is filed under its
  // lower-cased name and is stopped, a running proxy or a running session.
  lemma ShapesAlways(cipher: Cipher, s0: Sys, acts: seq<Action>)
    requires Booted(cipher, s0) && Legal(cipher, s0, acts)
    ensures WellFormed(Run(cipher, s0, acts).runners)
  {
    WellFormedRun(cipher, s0, acts);
  }

  // ---- write-through --------------------------------------------------------------------------

  // Some operation is about to save.
  ghost predicate SavePending(s: Sys) {
    exists id :: InFlight(s, id) && Next(s, id).Persist?
  }

  predicate IsSave(s: Sys, a: Action) {
    a.Step? && InFlight(s, a.id) && Next(s, a.id).Persist?
  }

  predicate SaveOk(s: Sys, a: Action) {
    IsSave(s, a) && a.saveOk
  }

  // A save that fails, or is not carried out because its operation is abandoned.
  predicate MissesSave(s: Sys, a: Action) {
    || (IsSave(s, a) && !a.saveOk)
    || (a.Abandon? && InFlight(s, a.id) && Next(s, a.id).Persist?)
  }

  // Has a save succeeded along the run?
  ghost predicate Saved(cipher: Cipher, s: Sys, acts: seq<Action>)
    requires Legal(cipher, s, acts)
    decreases |acts|
  {
    acts != [] && (SaveOk(s, acts[0]) || Saved(cipher, Apply(cipher, s, acts[0]), acts[1..]))
  }

  // The map as it was when a save last succeeded, or else `start`.
  ghost function LastSaved(cipher: Cipher, s: Sys, acts: seq<Action>, start: Runners): Runners
    requires Legal(cipher, s, acts)
    decreases |acts|
  {
    if acts == [] then start
    else LastSaved(cipher, Apply(cipher, s, acts[0]), acts[1..], if SaveOk(s, acts[0]) then s.runners else start)
  }

  // Has a configuration been changed since a save last succeeded?
  predicate UnsavedAfter(s: Sys, a: Action, was: bool) {
    if SaveOk(s, a) then false else was || (a.Step? && InFlight(s, a.id) && ChangesConfigs(Next(s, a.id)))
  }

  ghost predicate UnsavedSince(cipher: Cipher, s: Sys, acts: seq<Action>, was: bool)
    requires Legal(cipher, s, acts)
    decreases |acts|
  {
    if acts == [] then was
    else UnsavedSince(cipher, Apply(cipher, s, acts[0]), acts[1..], UnsavedAfter(s, acts[0], was))
  }

  // Has a save been missed since one last succeeded?
  predicate MissedAfter(s: Sys, a: Action, was: bool) {
    if SaveOk(s, a) then false else was || MissesSave(s, a)
  }

  ghost predicate MissedSince(cipher: Cipher, s: Sys, acts: seq<Action>, was: bool)
    requires Legal(cipher, s, acts)
    decreases |acts|
  {
    if acts == [] then was
    else MissedSince(cipher, Apply(cipher, s, acts[0]), acts[1..], MissedAfter(s, acts[0], was))
  }

  // The file tells the configurations of the map `saved`; or it is a first file with a name twice, which
  // agrees with no map.
  ghost predicate FileTells(cipher: Cipher, s: Sys, saved: Runners, good: bool) {
    && WellFormed(saved)
    && if good then Agrees(cipher, s.file, saved) else !DistinctNames(Load(cipher, s.file))
  }

  lemma FileStep(cipher: Cipher, s: Sys, a: Action, saved: Runners, good: bool)
    requires Inverse(cipher) && WellFormed(s.runners) && FileTells(cipher, s, saved, good) && Enabled(s, a)
    ensures FileTells(cipher, Apply(cipher, s, a), if SaveOk(s, a) then s.runners else saved, good || SaveOk(s, a))
  {
    if SaveOk(s, a) {
      SavedAgrees(cipher, a.order, s.runners);
    }
  }

  lemma {:induction false} FileRun(cipher: Cipher, s: Sys, acts: seq<Action>, saved: Runners, good: bool)
    requires Inverse(cipher) && OpsInv(s) && WellFormed(s.runners) && FileTells(cipher, s, saved, good)
    requires Legal(cipher, s, acts)
    ensures FileTells(cipher, Run(cipher, s, acts), LastSaved(cipher, s, acts, saved), good || Saved(cipher, s, acts))
    decreases |acts|
  {
    if acts != [] {
      var a := acts[0];
      OpsStep(cipher, s, a);
      WellFormedStep(cipher, s, a);
      FileStep(cipher, s, a, saved, good);
      FileRun(cipher, Apply(cipher, s, a), acts[1..], if SaveOk(s, a) then s.runners else saved, good || SaveOk(s, a));
    }
  }

  // Only files without a name twice agree with a well-formed map.
  lemma AgreeingIsDistinct(cipher: Cipher, file: Option<seq<SessionConfig>>, runners: Runners)
    requires WellFormed(runners) && Agrees(cipher, file, runners)
    ensures DistinctNames(Load(cipher, file))
  {
    var order :| IsOrder(order, runners.Keys) && Load(cipher, file) == Listing(order, runners);
    ListingDistinct(order, runners);
  }

  // From any startup, for any interleaving of create, stop, delete, restart and update, with saves failing
  // and operations abandoned: the stored list is a permutation of the current configurations exactly when
  // the file had no name twice to begin with or a save has succeeded, and the configurations are those of
  // that moment.
  lemma WriteThroughAgreement(cipher: Cipher, s0: Sys, acts: seq<Action>)
    requires Inverse(cipher) && Booted(cipher, s0) && Legal(cipher, s0, acts)
    ensures var s := Run(cipher, s0, acts);
            Agrees(cipher, s.file, s.runners) <==>
              && (DistinctNames(Load(cipher, s0.file)) || Saved(cipher, s0, acts))
              && SameConfigs(s.runners, LastSaved(cipher, s0, acts, s0.runners))
  {
    var s, saved := Run(cipher, s0, acts), LastSaved(cipher, s0, acts, s0.runners);
    AgreesIffDistinct(cipher, s0.file, s0.runners);
    FileRun(cipher, s0, acts, s0.runners, DistinctNames(Load(cipher, s0.file)));
    ShapesAlways(cipher, s0, acts);
    if Agrees(cipher, s.file, s.runners) {
      AgreeingIsDistinct(cipher, s.file, s.runners);
      AgreeAlike(cipher, s.file, s.runners, saved);
    } else if Agrees(cipher, s.file, saved) && SameConfigs(s.runners, saved) {
      SameConfigsAgree(cipher, s.file, saved, s.runners);
    }
  }

  lemma {:induction false} StoresRun(cipher: Cipher, s: Sys, acts: seq<Action>, saved: Runners, good: bool)
    requires Legal(cipher, s, acts) && (good ==> Stores(cipher, s.file, saved))
    ensures good || Saved(cipher, s, acts) ==>
              Stores(cipher, Run(cipher, s, acts).file, LastSaved(cipher, s, acts, saved))
    decreases |acts|
  {
    if acts != [] {
      var a := acts[0];
      if SaveOk(s, a) {
        SavedStores(cipher, a.order, s.runners);
      }
      StoresRun(cipher, Apply(cipher, s, a), acts[1..], if SaveOk(s, a) then s.runners else saved,
                good || SaveOk(s, a));
    }
  }

  // From any state, in every interleaving, whatever the cipher: once a save has succeeded the file holds the
  // configurations of that moment, each once, every password in them encrypted and nothing else changed.
  lemma StoredEncrypted(cipher: Cipher, s0: Sys, acts: seq<Action>)
    requires Legal(cipher, s0, acts) && Saved(cipher, s0, acts)
    ensures Stores(cipher, Run(cipher, s0, acts).file, LastSaved(cipher, s0, acts, s0.runners))
  {
    StoresRun(cipher, s0, acts, s0.runners, false);
  }

  lemma ConfigsStep(cipher: Cipher, s: Sys, a: Action, saved: Runners, unsaved: bool)
    requires Enabled(s, a) && (!unsaved ==> SameConfigs(s.runners, saved))
    ensures !UnsavedAfter(s, a, unsaved) ==>
              SameConfigs(Apply(cipher, s, a).runners, if SaveOk(s, a) then s.runners else saved)
  {
  }

  lemma {:induction false} ConfigsRun(cipher: Cipher, s: Sys, acts: seq<Action>, saved: Runners, unsaved: bool)
    requires Legal(cipher, s, acts) && (!unsaved ==> SameConfigs(s.runners, saved))
    ensures !UnsavedSince(cipher, s, acts, unsaved) ==>
              SameConfigs(Run(cipher, s, acts).runners, LastSaved(cipher, s, acts, saved))
    decreases |acts|
  {
    if acts != [] {
      var a := acts[0];
      ConfigsStep(cipher, s, a, saved, unsaved);
      ConfigsRun(cipher, Apply(cipher, s, a), acts[1..], if SaveOk(s, a) then s.runners else saved,
                 UnsavedAfter(s, a, unsaved));
    }
  }

  lemma PendingStays(cipher: Cipher, s: Sys, a: Action)
    requires SavePending(s) && Enabled(s, a) && !IsSave(s, a) && !MissesSave(s, a)
    ensures SavePending(Apply(cipher, s, a))
  {
    var id :| InFlight(s, id) && Next(s, id).Persist?;
    var t := Apply(cipher, s, a);
    if a.Step? {
      OnlyOneMoves(cipher, s, a);
    }
    assert InFlight(t, id) && Next(t, id).Persist?;
  }

  // A change that is not saved is about to be, unless a save was missed.
  lemma MissedStep(cipher: Cipher, s: Sys, a: Action, unsaved: bool, missed: bool)
    requires OpsInv(s) && Enabled(s, a) && (unsaved ==> SavePending(s) || missed)
    ensures UnsavedAfter(s, a, unsaved) ==> SavePending(Apply(cipher, s, a)) || MissedAfter(s, a, missed)
  {
    if a.Step? && ChangesConfigs(Next(s, a.id)) {
      var t := Apply(cipher, s, a);
      assert OpInv(s.ops[a.id]);
      assert InFlight(t, a.id) && Next(t, a.id).Persist?;
    } else if SavePending(s) && !IsSave(s, a) && !MissesSave(s, a) {
      PendingStays(cipher, s, a);
    }
  }

  lemma {:induction false} MissedRun(cipher: Cipher, s: Sys, acts: seq<Action>, unsaved: bool, missed: bool)
    requires OpsInv(s) && WellFormed(s.runners) && (unsaved ==> SavePending(s) || missed) && Legal(cipher, s, acts)
    ensures UnsavedSince(cipher, s, acts, unsaved) ==>
              SavePending(Run(cipher, s, acts)) || MissedSince(cipher, s, acts, missed)
    decreases |acts|
  {
    if acts != [] {
      var a := acts[0];
      OpsStep(cipher, s, a);
      WellFormedStep(cipher, s, a);
      MissedStep(cipher, s, a, unsaved, missed);
      MissedRun(cipher, Apply(cipher, s, a), acts[1..], UnsavedAfter(s, a, unsaved), MissedAfter(s, a, missed));
    }
  }

  // In terms of what was saved: the file agrees whenever no configuration has changed since a save last
  // succeeded, and so whenever no save is due and none was missed since then.
  lemma SavedAgreement(cipher: Cipher, s0: Sys, acts: seq<Action>)
    requires Inverse(cipher) && Booted(cipher, s0) && Legal(cipher, s0, acts)
    requires DistinctNames(Load(cipher, s0.file)) || Saved(cipher, s0, acts)
    ensures var s := Run(cipher, s0, acts);
            && (!UnsavedSince(cipher, s0, acts, false) ==> Agrees(cipher, s.file, s.runners))
            && (!SavePending(s) && !MissedSince(cipher, s0, acts, false) ==> Agrees(cipher, s.file, s.runners))
  {
    WriteThroughAgreement(cipher, s0, acts);
    ConfigsRun(cipher, s0, acts, s0.runners, false);
    MissedRun(cipher, s0, acts, false, false);
  }
}
