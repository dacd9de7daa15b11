/** Running tasks over whole runs: which of them no session owns any more, and when there are none. */
module LifecycleOrphans {
  import opened Wrappers
  import opened Config
  import opened Lifecycle
  import opened LifecycleRuns
  import opened LifecycleAlone
  import opened LifecycleFlags
  import Names

  // ---- owners ---------------------------------------------------------------------------------

  // The tasks an operation answers for: those it has started and not filed yet, those it awaits.
  function OpTokens(op: Op): set<nat> {
    if op.todo == [] then {}
    else if op.todo[0].Insert? then LaunchTokens(op.cfg, Launched, op.first)
    else if op.todo[0].Await? then op.held
    else {}
  }

  datatype Owner = ByEntry(key: string) | ByOp(id: nat)

  predicate Owns(s: Sys, o: Owner, t: nat) {
    match o
    case ByEntry(key) => key in s.runners && t in Tokens(s.runners[key])
    case ByOp(id) => id in s.ops && t in OpTokens(s.ops[id])
  }

  // A running task that neither an entry nor an operation in flight answers for.
  ghost predicate Orphan(s: Sys, t: nat) {
    t in s.live && forall o :: !Owns(s, o, t)
  }

  // Every task has at most one owner, and fresh tokens are fresh.
  ghost predicate OneOwner(s: Sys) {
    && (forall t :: t in s.live ==> t < s.next)
    && (forall o, t: nat :: Owns(s, o, t) ==> t < s.next)
    && (forall o, p, t: nat :: Owns(s, o, t) && Owns(s, p, t) ==> o == p)
  }

  // The step loses the task: a failed bind leaves its runner, an entry is replaced or removed while its
  // tasks run, the token of a running proxy is dropped, an operation is abandoned that answers for it.
  predicate Loses(s: Sys, a: Action, t: nat) {
    if a.Abandon? then t in s.live && Owns(s, ByOp(a.id), t)
    else
      && a.Step? && InFlight(s, a.id)
      && var op := s.ops[a.id];
         match op.todo[0]
         case Start => LaunchOutcome(op.cfg, a.bindOk).BindFailed? && t == s.next
         case Insert => t in s.live && t in TokensAt(s.runners, Names.Lower(op.cfg.name))
         case Take(key) => t in s.live && key in s.runners && t in OptSet(s.runners[key].proxyCancel)
         case Remove(key) => t in s.live && t in TokensAt(s.runners, key)
         case _ => false
  }

  // ---- one step -------------------------------------------------------------------------------

  // Who owned, before the step, what `o` owns after it.
  function Origin(s: Sys, a: Action, o: Owner): Owner {
    if !a.Step? || !InFlight(s, a.id) then o
    else if Next(s, a.id).Take? && o == ByOp(a.id) then ByEntry(Next(s, a.id).key)
    else if Next(s, a.id).Insert? && o == ByEntry(Names.Lower(s.ops[a.id].cfg.name)) then ByOp(a.id)
    else o
  }

  // The step starts tasks, for two fresh tokens.
  predicate Starts(s: Sys, a: Action) {
    a.Step? && InFlight(s, a.id) && Next(s, a.id).Start?
  }

  lemma EntryOrigin(cipher: Cipher, s: Sys, a: Action, key: string, t: nat)
    requires OpsInv(s) && Enabled(s, a) && Owns(Apply(cipher, s, a), ByEntry(key), t)
    ensures Owns(s, Origin(s, a, ByEntry(key)), t)
    ensures a.Step? && Next(s, a.id).Take? ==> Next(s, a.id).key != key
  {
    if a.Step? {
      OnlyOneMoves(cipher, s, a);
      if Next(s, a.id).Insert? {
        var op := s.ops[a.id];
        assert Tokens(NewEntry(op.cfg, op.first)) == LaunchTokens(op.cfg, Launched, op.first);
      }
    }
  }

  lemma OpOrigin(cipher: Cipher, s: Sys, a: Action, id: nat, t: nat)
    requires OpsInv(s) && Enabled(s, a) && Owns(Apply(cipher, s, a), ByOp(id), t)
    ensures if Starts(s, a) && id == a.id then t in {s.next, s.next + 1} else Owns(s, Origin(s, a, ByOp(id)), t)
    ensures !(a.Step? && Next(s, a.id).Insert? && id == a.id)
  {
    if a.Step? {
      OnlyOneMoves(cipher, s, a);
      if id == a.id {
        assert OpInv(s.ops[id]);
      }
    } else if a.Begin? && id == a.id {
      ProgramDisciplined(a.request);
    }
  }

  lemma OwnerBefore(cipher: Cipher, s: Sys, a: Action, o: Owner, t: nat)
    requires OpsInv(s) && Enabled(s, a) && Owns(Apply(cipher, s, a), o, t)
    ensures if Starts(s, a) && o == ByOp(a.id) then t in {s.next, s.next + 1} else Owns(s, Origin(s, a, o), t)
  {
    match o
    case ByEntry(key) => EntryOrigin(cipher, s, a, key, t);
    case ByOp(id) => OpOrigin(cipher, s, a, id, t);
  }

  // Two owners after the step were two before it.
  lemma OriginsDiffer(cipher: Cipher, s: Sys, a: Action, o: Owner, p: Owner, t: nat)
    requires OpsInv(s) && Enabled(s, a) && o != p
    requires Owns(Apply(cipher, s, a), o, t) && Owns(Apply(cipher, s, a), p, t)
    ensures Origin(s, a, o) != Origin(s, a, p)
  {
    if o.ByEntry? {
      EntryOrigin(cipher, s, a, o.key, t);
    } else {
      OpOrigin(cipher, s, a, o.id, t);
    }
    if p.ByEntry? {
      EntryOrigin(cipher, s, a, p.key, t);
    } else {
      OpOrigin(cipher, s, a, p.id, t);
    }
  }

  lemma NextGrows(cipher: Cipher, s: Sys, a: Action)
    requires Enabled(s, a)
    ensures var t := Apply(cipher, s, a);
            && t.next == (if Starts(s, a) then s.next + 2 else s.next)
            && (forall x :: x in t.live ==> x in s.live || (Starts(s, a) && x in {s.next, s.next + 1}))
  {
  }

  lemma OneOwnerStep(cipher: Cipher, s: Sys, a: Action)
    requires OpsInv(s) && OneOwner(s) && Enabled(s, a)
    ensures OneOwner(Apply(cipher, s, a))
  {
    var u := Apply(cipher, s, a);
    NextGrows(cipher, s, a);
    forall o, t: nat | Owns(u, o, t) ensures t < u.next {
      OwnerBefore(cipher, s, a, o, t);
    }
    forall o, p, t: nat | Owns(u, o, t) && Owns(u, p, t) ensures o == p {
      OwnerBefore(cipher, s, a, o, t);
      OwnerBefore(cipher, s, a, p, t);
      if o != p {
        OriginsDiffer(cipher, s, a, o, p, t);
      }
    }
  }

  // An orphan stays one, and what the step loses is one.
  lemma LostIsOrphan(cipher: Cipher, s: Sys, a: Action, t: nat)
    requires OpsInv(s) && WellFormed(s.runners) && OneOwner(s) && Enabled(s, a)
    requires Loses(s, a, t)
    ensures Orphan(Apply(cipher, s, a), t)
  {
    var u := Apply(cipher, s, a);
    if a.Step? {
      var m := Next(s, a.id);
      OnlyOneMoves(cipher, s, a);
      if m.Start? {
        assert u.ops[a.id].todo == [];
      } else {
        assert Owns(s, ByEntry(if m.Insert? then Names.Lower(s.ops[a.id].cfg.name) else m.key), t);
      }
    }
    forall o ensures !Owns(u, o, t) {
      if Owns(u, o, t) {
        OwnerBefore(cipher, s, a, o, t);
      }
    }
  }

  lemma OrphanStays(cipher: Cipher, s: Sys, a: Action, t: nat)
    requires OpsInv(s) && OneOwner(s) && Enabled(s, a)
    requires Orphan(s, t) && t in Apply(cipher, s, a).live
    ensures Orphan(Apply(cipher, s, a), t)
  {
    var u := Apply(cipher, s, a);
    forall o ensures !Owns(u, o, t) {
      if Owns(u, o, t) {
        OwnerBefore(cipher, s, a, o, t);
      }
    }
  }

  // A task that has an owner keeps one, unless the step loses it.
  lemma EntryKeeps(cipher: Cipher, s: Sys, a: Action, key: string, t: nat) returns (o: Owner)
    requires OpsInv(s) && Enabled(s, a) && t in s.live && Owns(s, ByEntry(key), t) && !Loses(s, a, t)
    ensures Owns(Apply(cipher, s, a), o, t)
  {
    o := ByEntry(key);
    if a.Step? {
      OnlyOneMoves(cipher, s, a);
      if Next(s, a.id) == Take(key) {
        assert OpInv(s.ops[a.id]);
        o := ByOp(a.id);
      }
    }
  }

  lemma OpKeeps(cipher: Cipher, s: Sys, a: Action, id: nat, t: nat) returns (o: Owner)
    requires OpsInv(s) && Enabled(s, a) && t in s.live && Owns(s, ByOp(id), t) && !Loses(s, a, t)
    ensures Owns(Apply(cipher, s, a), o, t)
  {
    o := ByOp(id);
    if a.Step? {
      OnlyOneMoves(cipher, s, a);
      if id == a.id {
        var op := s.ops[id];
        assert Tokens(NewEntry(op.cfg, op.first)) == LaunchTokens(op.cfg, Launched, op.first);
        o := ByEntry(Names.Lower(op.cfg.name));
      }
    }
  }

  lemma OnlyLostBecomeOrphans(cipher: Cipher, s: Sys, a: Action, t: nat)
    requires OpsInv(s) && Enabled(s, a) && Orphan(Apply(cipher, s, a), t)
    ensures Orphan(s, t) || Loses(s, a, t)
  {
    var u := Apply(cipher, s, a);
    NextGrows(cipher, s, a);
    if t !in s.live {
      StartedIsOwned(cipher, s, a, t);
    } else if !Orphan(s, t) && !Loses(s, a, t) {
      var p :| Owns(s, p, t);
      if p.ByEntry? {
        var _ := EntryKeeps(cipher, s, a, p.key, t);
      } else {
        var _ := OpKeeps(cipher, s, a, p.id, t);
      }
    }
  }

  lemma StartedIsOwned(cipher: Cipher, s: Sys, a: Action, t: nat)
    requires OpsInv(s) && Enabled(s, a) && t !in s.live && t in Apply(cipher, s, a).live
    ensures Loses(s, a, t) || (a.Step? && Owns(Apply(cipher, s, a), ByOp(a.id), t))
  {
    NextGrows(cipher, s, a);
    assert OpInv(s.ops[a.id]);
  }

  // Exactly which tasks a step leaves without an owner.
  lemma OrphanStep(cipher: Cipher, s: Sys, a: Action, t: nat)
    requires OpsInv(s) && WellFormed(s.runners) && OneOwner(s) && Enabled(s, a)
    ensures Orphan(Apply(cipher, s, a), t) <==>
              t in Apply(cipher, s, a).live && (Orphan(s, t) || Loses(s, a, t))
  {
    if Orphan(Apply(cipher, s, a), t) {
      OnlyLostBecomeOrphans(cipher, s, a, t);
    }
    if t in Apply(cipher, s, a).live && Orphan(s, t) {
      OrphanStays(cipher, s, a, t);
    }
    if Loses(s, a, t) {
      LostIsOrphan(cipher, s, a, t);
    }
  }

  // ---- whole runs -----------------------------------------------------------------------------

  lemma BootedOwners(cipher: Cipher, s: Sys)
    requires Booted(cipher, s)
    ensures OpsInv(s) && WellFormed(s.runners) && OneOwner(s)
  {
    forall o, t: nat | Owns(s, o, t) ensures o.ByEntry? && t in s.live {
      assert Tokens(s.runners[o.key]) <= s.live;
    }
  }

  // Some step of the run loses the task.
  ghost predicate LostAlong(cipher: Cipher, s: Sys, acts: seq<Action>, t: nat)
    requires Legal(cipher, s, acts)
    decreases |acts|
  {
    acts != [] && (Loses(s, acts[0], t) || LostAlong(cipher, Apply(cipher, s, acts[0]), acts[1..], t))
  }

  // Tokens are not used again.
  lemma {:induction false} NoRevival(cipher: Cipher, s: Sys, acts: seq<Action>, t: nat)
    requires Legal(cipher, s, acts) && t < s.next && t !in s.live
    ensures t !in Run(cipher, s, acts).live && !LostAlong(cipher, s, acts, t)
    decreases |acts|
  {
    if acts != [] {
      NextGrows(cipher, s, acts[0]);
      NoRevival(cipher, Apply(cipher, s, acts[0]), acts[1..], t);
    }
  }

  // No operation cancels a task that no entry holds: it can only end by itself.
  lemma OnlyEntriesFire(cipher: Cipher, s: Sys, a: Action, t: nat)
    requires Enabled(s, a) && t in s.live && a != Ends(t) && forall k :: !Owns(s, ByEntry(k), t)
    ensures t in Apply(cipher, s, a).live
  {
    if a.Step? && Next(s, a.id).Fire? {
      assert !Owns(s, ByEntry(Next(s, a.id).key), t);
    }
  }

  lemma {:induction false} OrphansOfRun(cipher: Cipher, s: Sys, acts: seq<Action>, t: nat)
    requires OpsInv(s) && WellFormed(s.runners) && OneOwner(s) && Legal(cipher, s, acts)
    ensures Orphan(Run(cipher, s, acts), t) <==>
              (Orphan(s, t) || LostAlong(cipher, s, acts, t)) && Ends(t) !in acts
    decreases |acts|
  {
    if acts != [] {
      var a, u := acts[0], Apply(cipher, s, acts[0]);
      OpsStep(cipher, s, a);
      WellFormedStep(cipher, s, a);
      OneOwnerStep(cipher, s, a);
      OrphansOfRun(cipher, u, acts[1..], t);
      OrphanStep(cipher, s, a, t);
      if a == Ends(t) {
        NoRevival(cipher, u, acts[1..], t);
      } else {
        if Orphan(s, t) {
          OnlyEntriesFire(cipher, s, a, t);
        }
        if Loses(s, a, t) {
          LostIsOrphan(cipher, s, a, t);
        }
        assert Ends(t) in acts <==> Ends(t) in acts[1..];
      }
    }
  }

  lemma QuietOrphans(s: Sys)
    requires Quiet(s)
    ensures NoOrphans(s.runners, s.live) <==> forall t: nat :: !Orphan(s, t)
  {
    forall t: nat, id | id in s.ops ensures !Owns(s, ByOp(id), t) {
      assert !InFlight(s, id);
    }
    forall t | t in s.live ensures Orphan(s, t) <==> !exists k :: k in s.runners && t in Tokens(s.runners[k]) {
      if k :| k in s.runners && t in Tokens(s.runners[k]) {
        assert Owns(s, ByEntry(k), t);
      }
    }
  }

  // From any startup, in every interleaving: when no operation is in flight, every running task belongs to
  // an entry if and only if all tasks lost on the way (or at startup, to a name listed twice) have ended
  // by themselves. Nothing else ends a lost task.
  lemma OrphansIff(cipher: Cipher, s0: Sys, acts: seq<Action>)
    requires Booted(cipher, s0) && Legal(cipher, s0, acts) && Quiet(Run(cipher, s0, acts))
    ensures NoOrphans(Run(cipher, s0, acts).runners, Run(cipher, s0, acts).live) <==>
              forall t: nat :: Orphan(s0, t) || LostAlong(cipher, s0, acts, t) ==> Ends(t) in acts
  {
    var s := Run(cipher, s0, acts);
    BootedOwners(cipher, s0);
    QuietOrphans(s);
    forall t: nat
      ensures Orphan(s, t) <==> (Orphan(s0, t) || LostAlong(cipher, s0, acts, t)) && Ends(t) !in acts
    {
      OrphansOfRun(cipher, s0, acts, t);
    }
  }

  // ---- a condition on the requests ------------------------------------------------------------

  predicate Clear(r: Request, q: Request) {
    Apart(r, q) && (CreateKey(r).Some? ==> CreateKey(r) != CreateKey(q))
  }

  // A request begins while no other one that stops or creates the session it creates is in flight, and
  // that session does not run, unless the request stops it first.
  ghost predicate BeginsSafely(s: Sys, r: Request) {
    && (forall id :: InFlight(s, id) ==> Clear(r, s.ops[id].request))
    && (CreateKey(r).Some? && CreateKey(r) != StopKey(r) ==> !RunningAt(s.runners, CreateKey(r).value))
  }

  // All requests do, every listen address they need is free, and no create is abandoned between starting
  // its tasks and filing them.
  ghost predicate Careful(cipher: Cipher, s: Sys, acts: seq<Action>)
    requires Legal(cipher, s, acts)
    decreases |acts|
  {
    acts == [] || (
      && (acts[0].Begin? ==> BeginsSafely(s, acts[0].request))
      && SafeStep(s, acts[0])
      && Careful(cipher, Apply(cipher, s, acts[0]), acts[1..]))
  }

  predicate SafeStep(s: Sys, a: Action) {
    && (Starts(s, a) ==> a.bindOk)
    && (a.Abandon? && InFlight(s, a.id) ==> !Next(s, a.id).Insert?)
  }

  ghost predicate AllClear(s: Sys) {
    forall i, j :: i != j && InFlight(s, i) && InFlight(s, j) ==> Clear(s.ops[i].request, s.ops[j].request)
  }

  // The operation counts on the session at `key` not running: it has stopped it, or is to create it.
  predicate CountsOn(op: Op, key: string) {
    && op.todo != []
    && if StopKey(op.request) == Some(key) then
         !WillTake(op.todo) && (CreateKey(op.request) == Some(key) ==> WillInsert(op.todo))
       else CreateKey(op.request) == Some(key) && WillInsert(op.todo)
  }

  ghost predicate CountsRight(s: Sys) {
    forall id, key :: id in s.ops && CountsOn(s.ops[id], key) ==> !RunningAt(s.runners, key)
  }

  // What an operation is about to take, or awaits, has been cancelled.
  ghost predicate TakesCancelled(s: Sys) {
    forall id :: InFlight(s, id) ==>
      && (Next(s, id).Take? ==> TokensAt(s.runners, Next(s, id).key) !! s.live)
      && (Next(s, id).Await? ==> s.ops[id].held !! s.live)
  }

  lemma ClearStep(cipher: Cipher, s: Sys, a: Action)
    requires AllClear(s) && Enabled(s, a) && (a.Begin? ==> BeginsSafely(s, a.request))
    ensures AllClear(Apply(cipher, s, a))
  {
    var t := Apply(cipher, s, a);
    if a.Step? {
      OnlyOneMoves(cipher, s, a);
    }
    forall i, j | i != j && InFlight(t, i) && InFlight(t, j) ensures Clear(t.ops[i].request, t.ops[j].request) {
      assert a.Begin? || (InFlight(s, i) && InFlight(s, j));
      assert a.Begin? && i != a.id && j != a.id ==> InFlight(s, i) && InFlight(s, j);
      assert a.Begin? && j == a.id ==> InFlight(s, i);
      assert a.Begin? && i == a.id ==> InFlight(s, j);
    }
  }

  // The operation's own step keeps what it counts on.
  lemma OwnCounts(cipher: Cipher, s: Sys, a: Action, key: string)
    requires OpsInv(s) && CountsRight(s) && a.Step? && Enabled(s, a)
    requires CountsOn(Apply(cipher, s, a).ops[a.id], key)
    ensures !RunningAt(Apply(cipher, s, a).runners, key)
  {
    var op, m := s.ops[a.id], Next(s, a.id);
    OnlyOneMoves(cipher, s, a);
    assert OpInv(op) && MayPrecede(m, op.todo[1..]);
    if m != Take(key) {
      assert CountsOn(op, key);
      if RunningAt(Apply(cipher, s, a).runners, key) {
        OnlyInsertStarts(cipher, s, a, key);
      }
    }
  }

  lemma OtherCounts(cipher: Cipher, s: Sys, a: Action, id: nat, key: string)
    requires OpsInv(s) && AllClear(s) && CountsRight(s) && Enabled(s, a)
    requires id in s.ops && CountsOn(s.ops[id], key) && (a.Ends? || id != a.id)
    ensures !RunningAt(Apply(cipher, s, a).runners, key)
  {
    assert InFlight(s, id);
    if a.Step? {
      assert Clear(s.ops[id].request, s.ops[a.id].request) && Clear(s.ops[a.id].request, s.ops[id].request);
    }
    if RunningAt(Apply(cipher, s, a).runners, key) {
      OnlyInsertStarts(cipher, s, a, key);
    }
  }

  lemma CountsStep(cipher: Cipher, s: Sys, a: Action)
    requires OpsInv(s) && AllClear(s) && CountsRight(s) && Enabled(s, a)
    requires a.Begin? ==> BeginsSafely(s, a.request)
    ensures CountsRight(Apply(cipher, s, a))
  {
    var t := Apply(cipher, s, a);
    forall id, key | id in t.ops && CountsOn(t.ops[id], key) ensures !RunningAt(t.runners, key) {
      if a.Step? && id == a.id {
        OwnCounts(cipher, s, a, key);
      } else if a.Begin? && id == a.id {
        ProgramDisciplined(a.request);
      } else {
        if a.Step? {
          OnlyOneMoves(cipher, s, a);
        }
        OtherCounts(cipher, s, a, id, key);
      }
    }
  }

  // Tokens at a key only change by filing an entry there.
  lemma TokensShrink(cipher: Cipher, s: Sys, a: Action, key: string)
    requires OpsInv(s) && Enabled(s, a)
    requires !(a.Step? && Next(s, a.id).Insert? && CreateKey(s.ops[a.id].request) == Some(key))
    ensures TokensAt(Apply(cipher, s, a).runners, key) <= TokensAt(s.runners, key)
  {
    if a.Step? {
      OnlyOneMoves(cipher, s, a);
      assert OpInv(s.ops[a.id]);
    }
  }

  lemma OwnCancelled(cipher: Cipher, s: Sys, a: Action)
    requires OpsInv(s) && TakesCancelled(s) && a.Step? && Enabled(s, a) && InFlight(Apply(cipher, s, a), a.id)
    ensures var t := Apply(cipher, s, a);
            && (Next(t, a.id).Take? ==> TokensAt(t.runners, Next(t, a.id).key) !! t.live)
            && (Next(t, a.id).Await? ==> t.ops[a.id].held !! t.live)
  {
    OnlyOneMoves(cipher, s, a);
    assert OpInv(s.ops[a.id]) && MayPrecede(Next(s, a.id), s.ops[a.id].todo[1..]);
  }

  lemma OtherCancelled(cipher: Cipher, s: Sys, a: Action, id: nat)
    requires OpsInv(s) && OneOwner(s) && AllClear(s) && TakesCancelled(s) && Enabled(s, a)
    requires InFlight(s, id) && (a.Ends? || id != a.id)
    ensures var t := Apply(cipher, s, a);
            && (Next(s, id).Take? ==> TokensAt(t.runners, Next(s, id).key) !! t.live)
            && (Next(s, id).Await? ==> s.ops[id].held !! t.live)
  {
    var t := Apply(cipher, s, a);
    NextGrows(cipher, s, a);
    assert OpInv(s.ops[id]);
    if Next(s, id).Take? {
      var key := Next(s, id).key;
      if a.Step? {
        assert Clear(s.ops[a.id].request, s.ops[id].request);
      }
      TokensShrink(cipher, s, a, key);
      forall x | x in TokensAt(t.runners, key) ensures x !in t.live {
        assert Owns(s, ByEntry(key), x);
      }
    } else if Next(s, id).Await? {
      forall x | x in s.ops[id].held ensures x !in t.live {
        assert Owns(s, ByOp(id), x);
      }
    }
  }

  lemma CancelledStep(cipher: Cipher, s: Sys, a: Action)
    requires OpsInv(s) && OneOwner(s) && AllClear(s) && TakesCancelled(s) && Enabled(s, a)
    ensures TakesCancelled(Apply(cipher, s, a))
  {
    var t := Apply(cipher, s, a);
    forall id | InFlight(t, id)
      ensures Next(t, id).Take? ==> TokensAt(t.runners, Next(t, id).key) !! t.live
      ensures Next(t, id).Await? ==> t.ops[id].held !! t.live
    {
      if a.Step? && id == a.id {
        OwnCancelled(cipher, s, a);
      } else if a.Begin? && id == a.id {
        ProgramDisciplined(a.request);
      } else {
        if a.Step? {
          OnlyOneMoves(cipher, s, a);
        }
        assert InFlight(s, id) && t.ops[id] == s.ops[id];
        OtherCancelled(cipher, s, a, id);
      }
    }
  }

  lemma StoppedHoldsNothing(runners: Runners, key: string)
    requires !RunningAt(runners, key)
    ensures TokensAt(runners, key) == {}
  {
  }

  lemma NothingLost(cipher: Cipher, s: Sys, a: Action, t: nat)
    requires OpsInv(s) && CountsRight(s) && TakesCancelled(s) && Enabled(s, a) && SafeStep(s, a)
    ensures !Loses(s, a, t)
  {
    if a.Step? {
      var op, m := s.ops[a.id], Next(s, a.id);
      assert OpInv(op) && Fits(m, op.request) && MayPrecede(m, op.todo[1..]);
      if m.Insert? || m.Remove? {
        var key := if m.Insert? then CreateKey(op.request).value else m.key;
        assert CountsOn(op, key);
        StoppedHoldsNothing(s.runners, key);
      }
    }
  }

  lemma {:induction false} CarefulRun(cipher: Cipher, s: Sys, acts: seq<Action>, t: nat)
    requires OpsInv(s) && WellFormed(s.runners) && OneOwner(s) && AllClear(s) && CountsRight(s) && TakesCancelled(s)
    requires Legal(cipher, s, acts) && Careful(cipher, s, acts)
    ensures !LostAlong(cipher, s, acts, t) && TakesCancelled(Run(cipher, s, acts))
    decreases |acts|
  {
    if acts != [] {
      var a := acts[0];
      NothingLost(cipher, s, a, t);
      OpsStep(cipher, s, a);
      WellFormedStep(cipher, s, a);
      OneOwnerStep(cipher, s, a);
      ClearStep(cipher, s, a);
      CountsStep(cipher, s, a);
      CancelledStep(cipher, s, a);
      CarefulRun(cipher, Apply(cipher, s, a), acts[1..], t);
    }
  }

  // From any startup that lost nothing: as long as the requests are careful, no running task is ever left
  // without an entry, and no stop ever waits for a task that was not cancelled.
  lemma CarefulLeavesNoOrphans(cipher: Cipher, s0: Sys, acts: seq<Action>)
    requires Booted(cipher, s0) && NoOrphans(s0.runners, s0.live)
    requires Legal(cipher, s0, acts) && Careful(cipher, s0, acts)
    ensures var s := Run(cipher, s0, acts);
            && (Quiet(s) ==> NoOrphans(s.runners, s.live))
            && (forall id :: InFlight(s, id) && Next(s, id).Await? ==> s.ops[id].held !! s.live)
  {
    BootedOwners(cipher, s0);
    CarefulRun(cipher, s0, acts, 0);
    QuietOrphans(s0);
    forall t: nat ensures !LostAlong(cipher, s0, acts, t) {
      CarefulRun(cipher, s0, acts, t);
    }
    if Quiet(Run(cipher, s0, acts)) {
      OrphansIff(cipher, s0, acts);
    }
  }

  // ---- what overlapping breaks ----------------------------------------------------------------

  function Session(): SessionConfig {
    NoConfig().(name := "a", sshUser := "u")
  }

  // A stop of "a" fires, finding nothing; a create of "a" runs from beginning to end; the stop goes on.
  lemma CreateOvertakesFire(cipher: Cipher, cfg: SessionConfig) returns (acts: seq<Action>)
    requires cfg.name == "a" && LaunchOutcome(cfg, true).Launched?
    ensures Legal(cipher, Fresh(), acts) && AllSaved(acts)
    ensures var s := Run(cipher, Fresh(), acts);
            && s.runners == Inserted(map[], cfg, 0) && s.live == LaunchTokens(cfg, Launched, 0)
            && s.ops.Keys == {0, 1} && s.ops[1].todo == []
            && s.ops[0].todo == [Take("a"), Await("a"), Unflag("a"), Persist]
  {
    assert Names.Lower("a") == "a";
    acts := StopFires(cipher, Fresh(), [], 0, "a");
    acts := CreateAlone(cipher, Fresh(), acts, 1, cfg, true, true);
  }

  lemma ThenItTakes(cipher: Cipher, cfg: SessionConfig) returns (acts: seq<Action>)
    requires cfg.name == "a" && LaunchOutcome(cfg, true).Launched?
    ensures Legal(cipher, Fresh(), acts) && AllSaved(acts)
    ensures var s := Run(cipher, Fresh(), acts);
            && s.live == LaunchTokens(cfg, Launched, 0) && s.runners.Keys == {"a"} && IsStopped(s.runners["a"])
            && s.ops.Keys == {0, 1} && s.ops[1].todo == []
            && s.ops[0].todo == [Await("a"), Unflag("a"), Persist]
            && s.ops[0].held == if cfg.upstream.HttpProxy? then {} else {0, 1}
  {
    assert Names.Lower("a") == "a";
    acts := CreateOvertakesFire(cipher, cfg);
    acts := NextStep(cipher, Fresh(), acts, 0, true, true);
  }

  lemma ThenItEnds(cipher: Cipher, acts: seq<Action>) returns (more: seq<Action>)
    requires Legal(cipher, Fresh(), acts) && AllSaved(acts)
    requires var s := Run(cipher, Fresh(), acts);
             && s.runners.Keys == {"a"} && IsStopped(s.runners["a"]) && s.ops.Keys == {0, 1} && s.ops[1].todo == []
             && s.ops[0].todo == [Await("a"), Unflag("a"), Persist] && s.ops[0].held == {}
    ensures Legal(cipher, Fresh(), more) && AllSaved(more)
    ensures var s, t := Run(cipher, Fresh(), acts), Run(cipher, Fresh(), more);
            && t.live == s.live && t.runners.Keys == {"a"} && IsStopped(t.runners["a"])
            && t.ops.Keys == {0, 1} && t.ops[0].todo == [] && t.ops[1].todo == []
  {
    more := NextStep(cipher, Fresh(), acts, 0, true, true);
    assert Run(cipher, Fresh(), more).ops[0].todo == [Unflag("a"), Persist];
    more := NextStep(cipher, Fresh(), more, 0, true, true);
    assert Run(cipher, Fresh(), more).ops[0].todo == [Persist];
    more := NextStep(cipher, Fresh(), more, 0, true, true);
  }

  // With a proxy, the stop drops the token of a running task: when both are done, the proxy runs on and no
  // entry knows it. No bind failed, and no running entry was overwritten.
  lemma OvertakenStopLosesProxy(cipher: Cipher) returns (acts: seq<Action>)
    ensures Booted(cipher, Fresh()) && Legal(cipher, Fresh(), acts) && AllSaved(acts)
    ensures var s := Run(cipher, Fresh(), acts); Quiet(s) && 0 in s.live && !NoOrphans(s.runners, s.live)
  {
    acts := ThenItTakes(cipher, Proxy());
    acts := ThenItEnds(cipher, acts);
    assert Tokens(Run(cipher, Fresh(), acts).runners["a"]) == {};
  }

  // With a session, the stop comes to wait for tasks that nobody has cancelled ...
  lemma OvertakenStopWaits(cipher: Cipher) returns (acts: seq<Action>)
    ensures Booted(cipher, Fresh()) && Legal(cipher, Fresh(), acts) && AllSaved(acts)
    ensures var s := Run(cipher, Fresh(), acts);
            InFlight(s, 0) && Next(s, 0) == Await("a") && s.ops[0].held == s.live == {0, 1}
  {
    assert Names.AllowedName("u");
    acts := ThenItTakes(cipher, Session());
  }

  // ... and waits until they end by themselves or it is abandoned: nothing else lets it go on.
  lemma {:induction false} UncancelledStopWaits(cipher: Cipher, s: Sys, acts: seq<Action>, id: nat, t: nat)
    requires OpsInv(s) && WellFormed(s.runners) && OneOwner(s) && Legal(cipher, s, acts)
    requires InFlight(s, id) && Next(s, id).Await? && t in s.ops[id].held && t in s.live
    requires Ends(t) !in acts && Abandon(id) !in acts
    ensures var u := Run(cipher, s, acts);
            InFlight(u, id) && Next(u, id).Await? && t in u.ops[id].held && t in u.live
    decreases |acts|
  {
    if acts != [] {
      var a := acts[0];
      assert Owns(s, ByOp(id), t);
      OnlyEntriesFire(cipher, s, a, t);
      OpsStep(cipher, s, a);
      WellFormedStep(cipher, s, a);
      OneOwnerStep(cipher, s, a);
      if a.Step? {
        OnlyOneMoves(cipher, s, a);
      }
      UncancelledStopWaits(cipher, Apply(cipher, s, a), acts[1..], id, t);
    }
  }
}
