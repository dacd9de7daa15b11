/**
 * One operation of the interleaved application run through from its request to its end, from any state and
 * with any others in flight: it comes to what the same operation of `AppState` does.
 */
module LifecycleAlone {
  import opened Wrappers
  import opened Config
  import opened Lifecycle
  import opened LifecycleRuns
  import Names

  lemma {:induction false} OrderExists(keys: set<string>) returns (order: seq<string>)
    ensures IsOrder(order, keys)
    decreases |keys|
  {
    if keys == {} {
      order := [];
    } else {
      var k :| k in keys;
      order := OrderExists(keys - {k});
      order := order + [k];
    }
  }

  // Take the next step of an operation.
  lemma NextStep(cipher: Cipher, s0: Sys, acts: seq<Action>, id: nat, bindOk: bool, saveOk: bool)
    returns (more: seq<Action>)
    requires Legal(cipher, s0, acts)
    requires var s := Run(cipher, s0, acts); InFlight(s, id) && (Next(s, id).Await? ==> s.ops[id].held !! s.live)
    ensures Legal(cipher, s0, more) && (AllSaved(acts) && saveOk ==> AllSaved(more))
    ensures exists order ::
              var a := Step(id, bindOk, saveOk, order);
              Enabled(Run(cipher, s0, acts), a) && Run(cipher, s0, more) == Apply(cipher, Run(cipher, s0, acts), a)
  {
    var order := OrderExists(Run(cipher, s0, acts).runners.Keys);
    RunExtend(cipher, s0, acts, Step(id, bindOk, saveOk, order));
    more := acts + [Step(id, bindOk, saveOk, order)];
  }

  lemma BeginNext(cipher: Cipher, s0: Sys, acts: seq<Action>, id: nat, r: Request) returns (more: seq<Action>)
    requires Legal(cipher, s0, acts) && id !in Run(cipher, s0, acts).ops
    ensures Legal(cipher, s0, more) && (AllSaved(acts) ==> AllSaved(more))
    ensures var s := Run(cipher, s0, acts); Run(cipher, s0, more) == s.(ops := s.ops[id := NewOp(r)])
  {
    RunExtend(cipher, s0, acts, Begin(id, r));
    more := acts + [Begin(id, r)];
  }

  // Everything but operation `id` is as it was.
  predicate OthersAsIn(s: Sys, t: Sys, id: nat) {
    id in t.ops && t.ops == s.ops[id := t.ops[id]]
  }

  // The application apart from its operations in flight.
  function Idle(s: Sys): Sys {
    s.(ops := map[])
  }

  // Operation `id` has taken some steps that changed nothing but itself; it holds `cfg` and has `todo` to do.
  predicate Ready(s: Sys, t: Sys, id: nat, cfg: SessionConfig, todo: seq<Micro>) {
    && Idle(t) == Idle(s) && OthersAsIn(s, t, id)
    && t.ops[id].cfg == cfg && t.ops[id].todo == todo
  }

  lemma OthersOnward(s: Sys, t: Sys, u: Sys, id: nat)
    requires OthersAsIn(s, t, id) && OthersAsIn(t, u, id)
    ensures OthersAsIn(s, u, id)
  {
  }

  // Operation `id` has come to `todo`, under the configuration it had; no other one has moved.
  predicate ComesTo(s: Sys, t: Sys, id: nat, todo: seq<Micro>) {
    id in s.ops && OthersAsIn(s, t, id) && t.ops[id].cfg == s.ops[id].cfg && t.ops[id].todo == todo
  }

  // The file was written, and tells the map; or it is what it was.
  ghost predicate WrittenIf(cipher: Cipher, written: bool, was: Option<seq<SessionConfig>>, t: Sys) {
    if written then Stores(cipher, t.file, t.runners) && (Inverse(cipher) ==> Agrees(cipher, t.file, t.runners))
    else t.file == was
  }

  lemma FireStep(cipher: Cipher, s0: Sys, acts: seq<Action>, id: nat, key: string, rest: seq<Micro>)
    returns (more: seq<Action>)
    requires Legal(cipher, s0, acts)
    requires var s := Run(cipher, s0, acts); id in s.ops && s.ops[id].todo == [Fire(key)] + rest
    ensures Legal(cipher, s0, more) && (AllSaved(acts) ==> AllSaved(more))
    ensures var s, t := Run(cipher, s0, acts), Run(cipher, s0, more);
            && t == s.(live := t.live, ops := t.ops) && t.live == s.live - TokensAt(s.runners, key)
            && ComesTo(s, t, id, rest) && t.ops[id] == s.ops[id].(todo := rest)
  {
    assert ([Fire(key)] + rest)[1..] == rest;
    more := NextStep(cipher, s0, acts, id, true, true);
  }

  lemma TakeStep(cipher: Cipher, s0: Sys, acts: seq<Action>, id: nat, key: string, rest: seq<Micro>)
    returns (more: seq<Action>)
    requires Legal(cipher, s0, acts)
    requires var s := Run(cipher, s0, acts); id in s.ops && s.ops[id].todo == [Take(key)] + rest
    ensures Legal(cipher, s0, more) && (AllSaved(acts) ==> AllSaved(more))
    ensures var s, t := Run(cipher, s0, acts), Run(cipher, s0, more);
            && t == s.(runners := Taken(s.runners, key), ops := t.ops)
            && ComesTo(s, t, id, rest) && t.ops[id].held == HeldAt(s.runners, key)
  {
    assert ([Take(key)] + rest)[1..] == rest;
    more := NextStep(cipher, s0, acts, id, true, true);
  }

  lemma AwaitStep(cipher: Cipher, s0: Sys, acts: seq<Action>, id: nat, key: string, rest: seq<Micro>)
    returns (more: seq<Action>)
    requires Legal(cipher, s0, acts)
    requires var s := Run(cipher, s0, acts);
             id in s.ops && s.ops[id].todo == [Await(key)] + rest && s.ops[id].held !! s.live
    ensures Legal(cipher, s0, more) && (AllSaved(acts) ==> AllSaved(more))
    ensures var s, t := Run(cipher, s0, acts), Run(cipher, s0, more);
            t == s.(ops := t.ops) && ComesTo(s, t, id, rest)
  {
    assert ([Await(key)] + rest)[1..] == rest;
    more := NextStep(cipher, s0, acts, id, true, true);
  }

  lemma UnflagStep(cipher: Cipher, s0: Sys, acts: seq<Action>, id: nat, key: string, rest: seq<Micro>)
    returns (more: seq<Action>)
    requires Legal(cipher, s0, acts)
    requires var s := Run(cipher, s0, acts); id in s.ops && s.ops[id].todo == [Unflag(key)] + rest
    ensures Legal(cipher, s0, more) && (AllSaved(acts) ==> AllSaved(more))
    ensures var s, t := Run(cipher, s0, acts), Run(cipher, s0, more);
            t == s.(runners := Lifecycle.Unflagged(s.runners, key), ops := t.ops) && ComesTo(s, t, id, rest)
  {
    assert ([Unflag(key)] + rest)[1..] == rest;
    more := NextStep(cipher, s0, acts, id, true, true);
  }

  lemma PersistStep(cipher: Cipher, s0: Sys, acts: seq<Action>, id: nat, rest: seq<Micro>, saveOk: bool)
    returns (more: seq<Action>)
    requires Legal(cipher, s0, acts)
    requires var s := Run(cipher, s0, acts); id in s.ops && s.ops[id].todo == [Persist] + rest
    ensures Legal(cipher, s0, more) && (AllSaved(acts) && saveOk ==> AllSaved(more))
    ensures var s, t := Run(cipher, s0, acts), Run(cipher, s0, more);
            && t == s.(file := t.file, ops := t.ops) && WrittenIf(cipher, saveOk, s.file, t)
            && ComesTo(s, t, id, if saveOk then rest else [])
  {
    var s := Run(cipher, s0, acts);
    assert ([Persist] + rest)[1..] == rest;
    more := NextStep(cipher, s0, acts, id, true, saveOk);
    var order :| var a := Step(id, true, saveOk, order);
                 Enabled(s, a) && Run(cipher, s0, more) == Apply(cipher, s, a);
    SavedStores(cipher, order, s.runners);
    if Inverse(cipher) {
      SavedAgrees(cipher, order, s.runners);
    }
  }

  // The steps of a stop up to its save, whatever else is in flight. Its wait never blocks: the tasks it
  // waits for were cancelled.
  lemma StopsUpToSave(cipher: Cipher, s0: Sys, acts: seq<Action>, id: nat, key: string, rest: seq<Micro>)
    returns (more: seq<Action>)
    requires Legal(cipher, s0, acts)
    requires var s := Run(cipher, s0, acts); id in s.ops && s.ops[id].todo == StopThen(key, rest)
    ensures Legal(cipher, s0, more) && (AllSaved(acts) ==> AllSaved(more))
    ensures var s, t := Run(cipher, s0, acts), Run(cipher, s0, more);
            && t.runners == Stopped(s.runners, key) && t.live == s.live - TokensAt(s.runners, key)
            && t.next == s.next && t.file == s.file && ComesTo(s, t, id, [Persist] + rest)
  {
    var s := Run(cipher, s0, acts);
    more := FireStep(cipher, s0, acts, id, key, [Take(key)] + ([Await(key)] + ([Unflag(key)] + ([Persist] + rest))));
    more := TakeStep(cipher, s0, more, id, key, [Await(key)] + ([Unflag(key)] + ([Persist] + rest)));
    assert HeldAt(s.runners, key) <= TokensAt(s.runners, key);
    more := AwaitStep(cipher, s0, more, id, key, [Unflag(key)] + ([Persist] + rest));
    more := UnflagStep(cipher, s0, more, id, key, [Persist] + rest);
  }

  lemma StopsAndSaves(cipher: Cipher, s0: Sys, acts: seq<Action>, id: nat, key: string, rest: seq<Micro>, saveOk: bool)
    returns (more: seq<Action>)
    requires Legal(cipher, s0, acts)
    requires var s := Run(cipher, s0, acts); id in s.ops && s.ops[id].todo == StopThen(key, rest)
    ensures Legal(cipher, s0, more) && (AllSaved(acts) && saveOk ==> AllSaved(more))
    ensures var s, t := Run(cipher, s0, acts), Run(cipher, s0, more);
            && t.runners == Stopped(s.runners, key) && t.live == s.live - TokensAt(s.runners, key)
            && t.next == s.next && WrittenIf(cipher, saveOk, s.file, t)
            && ComesTo(s, t, id, if saveOk then rest else [])
  {
    more := StopsUpToSave(cipher, s0, acts, id, key, rest);
    more := PersistStep(cipher, s0, more, id, rest, saveOk);
  }

  lemma StartStep(cipher: Cipher, s0: Sys, acts: seq<Action>, id: nat, rest: seq<Micro>, bindOk: bool)
    returns (more: seq<Action>)
    requires Legal(cipher, s0, acts)
    requires var s := Run(cipher, s0, acts); id in s.ops && s.ops[id].todo == [Start] + rest
    ensures Legal(cipher, s0, more) && (AllSaved(acts) ==> AllSaved(more))
    ensures var s, t := Run(cipher, s0, acts), Run(cipher, s0, more);
            var outcome := LaunchOutcome(s.ops[id].cfg, bindOk);
            && t.runners == s.runners && t.file == s.file && t.next == s.next + 2
            && t.live == s.live + LaunchTokens(s.ops[id].cfg, outcome, s.next)
            && ComesTo(s, t, id, if outcome.Launched? then rest else [])
            && (outcome.Launched? ==> t.ops[id].first == s.next)
  {
    assert ([Start] + rest)[1..] == rest;
    more := NextStep(cipher, s0, acts, id, bindOk, true);
  }

  lemma InsertStep(cipher: Cipher, s0: Sys, acts: seq<Action>, id: nat, rest: seq<Micro>) returns (more: seq<Action>)
    requires Legal(cipher, s0, acts)
    requires var s := Run(cipher, s0, acts); id in s.ops && s.ops[id].todo == [Insert] + rest
    ensures Legal(cipher, s0, more) && (AllSaved(acts) ==> AllSaved(more))
    ensures var s, t := Run(cipher, s0, acts), Run(cipher, s0, more);
            && t == s.(runners := Inserted(s.runners, s.ops[id].cfg, s.ops[id].first), ops := t.ops)
            && ComesTo(s, t, id, rest)
  {
    assert ([Insert] + rest)[1..] == rest;
    more := NextStep(cipher, s0, acts, id, true, true);
  }

  // The steps of a create, whatever else is in flight, do what `AppState.CreateSession` does.
  lemma CreatesAndSaves(cipher: Cipher, s0: Sys, acts: seq<Action>, id: nat, bindOk: bool, saveOk: bool)
    returns (more: seq<Action>)
    requires Legal(cipher, s0, acts)
    requires var s := Run(cipher, s0, acts); id in s.ops && s.ops[id].todo == CreateSteps()
    ensures Legal(cipher, s0, more) && (AllSaved(acts) && saveOk ==> AllSaved(more))
    ensures var s, t := Run(cipher, s0, acts), Run(cipher, s0, more);
            var cfg := s.ops[id].cfg;
            && t.runners == CreateMap(s.runners, cfg, bindOk, s.next) && t.next == s.next + 2
            && t.live == s.live + LaunchTokens(cfg, LaunchOutcome(cfg, bindOk), s.next)
            && WrittenIf(cipher, CreateResult(cfg, bindOk, saveOk).Success?, s.file, t)
            && OthersAsIn(s, t, id) && !InFlight(t, id)
  {
    var s := Run(cipher, s0, acts);
    more := StartStep(cipher, s0, acts, id, [Insert] + ([Persist] + []), bindOk);
    if LaunchOutcome(s.ops[id].cfg, bindOk).Launched? {
      more := InsertStep(cipher, s0, more, id, [Persist] + []);
      more := PersistStep(cipher, s0, more, id, [], saveOk);
    }
  }

  // A create, from its request on: three steps.
  lemma CreateAlone(cipher: Cipher, s0: Sys, acts: seq<Action>, id: nat, cfg: SessionConfig, bindOk: bool, saveOk: bool)
    returns (more: seq<Action>)
    requires Legal(cipher, s0, acts) && id !in Run(cipher, s0, acts).ops
    ensures Legal(cipher, s0, more) && (AllSaved(acts) && saveOk ==> AllSaved(more))
    ensures var s, t := Run(cipher, s0, acts), Run(cipher, s0, more);
            var r := CreateResult(cfg, bindOk, saveOk);
            && CreateDoes(s.runners, s.live, s.next, cfg, bindOk, saveOk, t.runners, t.live, r)
            && t.runners == CreateMap(s.runners, cfg, bindOk, s.next) && t.next == s.next + 2
            && WrittenIf(cipher, r.Success?, s.file, t)
            && OthersAsIn(s, t, id) && !InFlight(t, id)
  {
    var s := Run(cipher, s0, acts);
    more := BeginNext(cipher, s0, acts, id, Create(cfg));
    more := CreatesAndSaves(cipher, s0, more, id, bindOk, saveOk);
    CreateCases(s.runners, s.live, s.next, cfg, bindOk, saveOk);
  }

  // A stop, up to where it has cancelled the tasks, and up to where it has taken the handles.
  lemma StopFires(cipher: Cipher, s0: Sys, acts: seq<Action>, id: nat, name: string) returns (more: seq<Action>)
    requires Legal(cipher, s0, acts) && AllSaved(acts) && id !in Run(cipher, s0, acts).ops
    ensures Legal(cipher, s0, more) && AllSaved(more)
    ensures var s, t := Run(cipher, s0, acts), Run(cipher, s0, more);
            var key := Names.Lower(name);
            && t.runners == s.runners && t.live == s.live - TokensAt(s.runners, key) && t.next == s.next
            && OthersAsIn(s, t, id)
            && t.ops[id] == Op(Stop(name), [Take(key), Await(key), Unflag(key), Persist], NoConfig(), 0, {})
  {
    var key := Names.Lower(name);
    var rest := [Take(key)] + ([Await(key)] + ([Unflag(key)] + ([Persist] + [])));
    assert rest == [Take(key), Await(key), Unflag(key), Persist];
    more := BeginNext(cipher, s0, acts, id, Stop(name));
    more := FireStep(cipher, s0, more, id, key, rest);
  }

  lemma StopTakes(cipher: Cipher, s0: Sys, acts: seq<Action>, id: nat, name: string) returns (more: seq<Action>)
    requires Legal(cipher, s0, acts) && AllSaved(acts) && id !in Run(cipher, s0, acts).ops
    ensures Legal(cipher, s0, more) && AllSaved(more)
    ensures var s, t := Run(cipher, s0, acts), Run(cipher, s0, more);
            var key := Names.Lower(name);
            && t.runners == Taken(s.runners, key) && t.live == s.live - TokensAt(s.runners, key)
            && OthersAsIn(s, t, id) && t.ops[id].todo == [Await(key), Unflag(key), Persist]
            && t.ops[id].held == HeldAt(s.runners, key)
  {
    var key := Names.Lower(name);
    more := StopFires(cipher, s0, acts, id, name);
    more := TakeStep(cipher, s0, more, id, key, [Await(key), Unflag(key), Persist]);
  }

  // A stop, from its request on: five steps that amount to `AppState.StopSession`.
  lemma StopAlone(cipher: Cipher, s0: Sys, acts: seq<Action>, id: nat, name: string, saveOk: bool)
    returns (more: seq<Action>)
    requires Legal(cipher, s0, acts) && id !in Run(cipher, s0, acts).ops
    ensures Legal(cipher, s0, more) && (AllSaved(acts) && saveOk ==> AllSaved(more))
    ensures var s, t := Run(cipher, s0, acts), Run(cipher, s0, more);
            && StopsOnly(s.runners, t.runners, Names.Lower(name))
            && t.live == s.live - TokensAt(s.runners, Names.Lower(name)) && t.next == s.next
            && WrittenIf(cipher, saveOk, s.file, t)
            && OthersAsIn(s, t, id) && !InFlight(t, id)
  {
    StoppedStopsOnly(Run(cipher, s0, acts).runners, Names.Lower(name));
    more := BeginNext(cipher, s0, acts, id, Stop(name));
    more := StopsAndSaves(cipher, s0, more, id, Names.Lower(name), [], saveOk);
  }

  lemma RemoveStep(cipher: Cipher, s0: Sys, acts: seq<Action>, id: nat, key: string, rest: seq<Micro>)
    returns (more: seq<Action>)
    requires Legal(cipher, s0, acts)
    requires var s := Run(cipher, s0, acts); id in s.ops && s.ops[id].todo == [Remove(key)] + rest
    ensures Legal(cipher, s0, more) && (AllSaved(acts) ==> AllSaved(more))
    ensures var s, t := Run(cipher, s0, acts), Run(cipher, s0, more);
            t == s.(runners := s.runners - {key}, ops := t.ops) && ComesTo(s, t, id, rest)
  {
    assert ([Remove(key)] + rest)[1..] == rest;
    more := NextStep(cipher, s0, acts, id, true, true);
  }

  lemma RemovesAndSaves(cipher: Cipher, s0: Sys, acts: seq<Action>, id: nat, key: string, saveOk: bool)
    returns (more: seq<Action>)
    requires Legal(cipher, s0, acts)
    requires var s := Run(cipher, s0, acts); id in s.ops && s.ops[id].todo == [Remove(key)] + ([Persist] + [])
    ensures Legal(cipher, s0, more) && (AllSaved(acts) && saveOk ==> AllSaved(more))
    ensures var s, t := Run(cipher, s0, acts), Run(cipher, s0, more);
            && t.runners == s.runners - {key} && t.live == s.live && t.next == s.next
            && WrittenIf(cipher, saveOk, s.file, t) && ComesTo(s, t, id, [])
  {
    more := RemoveStep(cipher, s0, acts, id, key, [Persist] + []);
    more := PersistStep(cipher, s0, more, id, [], saveOk);
  }

  // What a delete comes to: the session and its tasks are gone; when the first save fails it is stopped and
  // stays listed, when the second one fails it is listed, stopped, in the file.
  ghost predicate Deletes(cipher: Cipher, s: Sys, t: Sys, key: string, stopSaved: bool, saveOk: bool) {
    && t.live == s.live - TokensAt(s.runners, key) && t.next == s.next
    && if !stopSaved then StopsOnly(s.runners, t.runners, key) && t.file == s.file
       else
         && t.runners == s.runners - {key}
         && if saveOk then WrittenIf(cipher, true, s.file, t)
            else exists stopped :: StopsOnly(s.runners, stopped, key) && Stores(cipher, t.file, stopped)
  }

  lemma StopsAndRemoves(cipher: Cipher, s0: Sys, acts: seq<Action>, id: nat, key: string, stopSaved: bool, saveOk: bool)
    returns (more: seq<Action>)
    requires Legal(cipher, s0, acts)
    requires var s := Run(cipher, s0, acts);
             id in s.ops && s.ops[id].todo == StopThen(key, [Remove(key)] + ([Persist] + []))
    ensures Legal(cipher, s0, more) && (AllSaved(acts) && stopSaved && saveOk ==> AllSaved(more))
    ensures var s, t := Run(cipher, s0, acts), Run(cipher, s0, more);
            && OthersAsIn(s, t, id) && !InFlight(t, id)
            && Deletes(cipher, Idle(s), t, key, stopSaved, saveOk)
  {
    StoppedStopsOnly(Run(cipher, s0, acts).runners, key);
    StoppedRemoved(Run(cipher, s0, acts).runners, key);
    more := StopsAndSaves(cipher, s0, acts, id, key, [Remove(key)] + ([Persist] + []), stopSaved);
    if stopSaved {
      more := RemovesAndSaves(cipher, s0, more, id, key, saveOk);
    }
  }

  lemma DeleteBegins(cipher: Cipher, s0: Sys, acts: seq<Action>, id: nat, name: string) returns (more: seq<Action>)
    requires Legal(cipher, s0, acts) && id !in Run(cipher, s0, acts).ops
    ensures Legal(cipher, s0, more) && (AllSaved(acts) ==> AllSaved(more))
    ensures Ready(Run(cipher, s0, acts), Run(cipher, s0, more), id, NoConfig(),
                  StopThen(Names.Lower(name), [Remove(Names.Lower(name))] + ([Persist] + [])))
  {
    more := BeginNext(cipher, s0, acts, id, Delete(name));
  }

  // A delete, from its request on, amounts to `AppState.DeleteSession`.
  lemma DeleteAlone(cipher: Cipher, s0: Sys, acts: seq<Action>, id: nat, name: string, stopSaved: bool, saveOk: bool)
    returns (more: seq<Action>)
    requires Legal(cipher, s0, acts) && id !in Run(cipher, s0, acts).ops
    ensures Legal(cipher, s0, more) && (AllSaved(acts) && stopSaved && saveOk ==> AllSaved(more))
    ensures var s, t := Run(cipher, s0, acts), Run(cipher, s0, more);
            && OthersAsIn(s, t, id) && !InFlight(t, id)
            && Deletes(cipher, Idle(s), t, Names.Lower(name), stopSaved, saveOk)
  {
    var s := Run(cipher, s0, acts);
    more := DeleteBegins(cipher, s0, acts, id, name);
    var u := Run(cipher, s0, more);
    more := StopsAndRemoves(cipher, s0, more, id, Names.Lower(name), stopSaved, saveOk);
    OthersOnward(s, u, Run(cipher, s0, more), id);
  }

  // What stopping the session at `key` and then creating `cfg` comes to: when the first save fails the
  // session is stopped, and nothing else; otherwise the stopped map is what the create starts from.
  ghost predicate Replaces(cipher: Cipher, s: Sys, t: Sys, key: string, cfg: SessionConfig, bindOk: bool,
                           stopSaved: bool, saveOk: bool) {
    var left, r := s.live - TokensAt(s.runners, key), CreateResult(cfg, bindOk, saveOk);
    if !stopSaved then
      StopsOnly(s.runners, t.runners, key) && t.live == left && t.next == s.next && t.file == s.file
    else
      && (exists stopped ::
            && StopsOnly(s.runners, stopped, key)
            && CreateDoes(stopped, left, s.next, cfg, bindOk, saveOk, t.runners, t.live, r)
            && (r.Failure? ==> Stores(cipher, t.file, stopped)))
      && (r.Success? ==> WrittenIf(cipher, true, s.file, t))
  }

  // A stop and then a create, under the configuration the operation has come to hold.
  lemma StopsAndCreates(cipher: Cipher, s0: Sys, acts: seq<Action>, id: nat, key: string, bindOk: bool,
                        stopSaved: bool, saveOk: bool)
    returns (more: seq<Action>)
    requires Legal(cipher, s0, acts)
    requires var s := Run(cipher, s0, acts); id in s.ops && s.ops[id].todo == StopThen(key, CreateSteps())
    ensures Legal(cipher, s0, more) && (AllSaved(acts) && stopSaved && saveOk ==> AllSaved(more))
    ensures var s, t := Run(cipher, s0, acts), Run(cipher, s0, more);
            && OthersAsIn(s, t, id) && !InFlight(t, id)
            && Replaces(cipher, Idle(s), t, key, s.ops[id].cfg, bindOk, stopSaved, saveOk)
  {
    var s := Run(cipher, s0, acts);
    var cfg := s.ops[id].cfg;
    StoppedStopsOnly(s.runners, key);
    CreateCases(Stopped(s.runners, key), s.live - TokensAt(s.runners, key), s.next, cfg, bindOk, saveOk);
    more := StopsAndSaves(cipher, s0, acts, id, key, CreateSteps(), stopSaved);
    if stopSaved {
      more := CreatesAndSaves(cipher, s0, more, id, bindOk, saveOk);
    }
  }

  lemma ReadConfigStep(cipher: Cipher, s0: Sys, acts: seq<Action>, id: nat, key: string, rest: seq<Micro>)
    returns (more: seq<Action>)
    requires Legal(cipher, s0, acts)
    requires var s := Run(cipher, s0, acts); id in s.ops && s.ops[id].todo == [ReadConfig(key)] + rest
    ensures Legal(cipher, s0, more) && (AllSaved(acts) ==> AllSaved(more))
    ensures var s, t := Run(cipher, s0, acts), Run(cipher, s0, more);
            && t == s.(ops := t.ops) && OthersAsIn(s, t, id)
            && t.ops[id].todo == (if key in s.runners then rest else [])
            && (key in s.runners ==> t.ops[id].cfg == s.runners[key].config)
  {
    assert ([ReadConfig(key)] + rest)[1..] == rest;
    more := NextStep(cipher, s0, acts, id, true, true);
  }

  lemma RestartBegins(cipher: Cipher, s0: Sys, acts: seq<Action>, id: nat, name: string) returns (more: seq<Action>)
    requires Legal(cipher, s0, acts) && id !in Run(cipher, s0, acts).ops
    ensures Legal(cipher, s0, more) && (AllSaved(acts) ==> AllSaved(more))
    ensures var s, t := Run(cipher, s0, acts), Run(cipher, s0, more);
            var key := Names.Lower(name);
            if key in s.runners then Ready(s, t, id, s.runners[key].config, StopThen(key, CreateSteps()))
            else t == s.(ops := t.ops) && OthersAsIn(s, t, id) && !InFlight(t, id)
  {
    var key := Names.Lower(name);
    more := BeginNext(cipher, s0, acts, id, Restart(name));
    more := ReadConfigStep(cipher, s0, more, id, key, StopThen(key, CreateSteps()));
  }

  // A restart, from its request on, amounts to `AppState.RestartSession`: the session comes back under the
  // configuration it had; a name that is not there changes nothing.
  lemma RestartAlone(cipher: Cipher, s0: Sys, acts: seq<Action>, id: nat, name: string, bindOk: bool, stopSaved: bool,
                     saveOk: bool)
    returns (more: seq<Action>)
    requires Legal(cipher, s0, acts) && id !in Run(cipher, s0, acts).ops
    ensures Legal(cipher, s0, more) && (AllSaved(acts) && stopSaved && saveOk ==> AllSaved(more))
    ensures var s, t := Run(cipher, s0, acts), Run(cipher, s0, more);
            var key := Names.Lower(name);
            && OthersAsIn(s, t, id) && !InFlight(t, id)
            && if key !in s.runners then t == s.(ops := t.ops)
               else Replaces(cipher, Idle(s), t, key, s.runners[key].config, bindOk, stopSaved, saveOk)
  {
    var s, key := Run(cipher, s0, acts), Names.Lower(name);
    more := RestartBegins(cipher, s0, acts, id, name);
    if key in s.runners {
      var u := Run(cipher, s0, more);
      more := StopsAndCreates(cipher, s0, more, id, key, bindOk, stopSaved, saveOk);
      OthersOnward(s, u, Run(cipher, s0, more), id);
    }
  }

  lemma ReadPasswordStep(cipher: Cipher, s0: Sys, acts: seq<Action>, id: nat, key: string, rest: seq<Micro>)
    returns (more: seq<Action>)
    requires Legal(cipher, s0, acts)
    requires var s := Run(cipher, s0, acts); id in s.ops && s.ops[id].todo == [ReadPassword(key)] + rest
    ensures Legal(cipher, s0, more) && (AllSaved(acts) ==> AllSaved(more))
    ensures var s, t := Run(cipher, s0, acts), Run(cipher, s0, more);
            && t == s.(ops := t.ops) && OthersAsIn(s, t, id) && t.ops[id].todo == rest
            && KeepsOnly(s.runners, key, s.ops[id].cfg, t.ops[id].cfg)
  {
    assert ([ReadPassword(key)] + rest)[1..] == rest;
    more := NextStep(cipher, s0, acts, id, true, true);
  }

  lemma UpdateBegins(cipher: Cipher, s0: Sys, acts: seq<Action>, id: nat, oldName: string, cfg: SessionConfig)
    returns (more: seq<Action>, kept: SessionConfig)
    requires Legal(cipher, s0, acts) && id !in Run(cipher, s0, acts).ops
    ensures Legal(cipher, s0, more) && (AllSaved(acts) ==> AllSaved(more))
    ensures KeepsOnly(Run(cipher, s0, acts).runners, Names.Lower(oldName), cfg, kept)
    ensures Ready(Run(cipher, s0, acts), Run(cipher, s0, more), id, kept,
                  StopThen(Names.Lower(oldName), CreateSteps()))
  {
    var key := Names.Lower(oldName);
    more := BeginNext(cipher, s0, acts, id, Update(oldName, cfg));
    more := ReadPasswordStep(cipher, s0, more, id, key, StopThen(key, CreateSteps()));
    kept := Run(cipher, s0, more).ops[id].cfg;
  }

  // An update, from its request on, amounts to `AppState.UpdateSession`: the old name is stopped, and what is
  // created is `kept`: the new configuration, with the old password if it has none.
  lemma UpdateAlone(cipher: Cipher, s0: Sys, acts: seq<Action>, id: nat, oldName: string, cfg: SessionConfig,
                    bindOk: bool, stopSaved: bool, saveOk: bool)
    returns (more: seq<Action>, kept: SessionConfig)
    requires Legal(cipher, s0, acts) && id !in Run(cipher, s0, acts).ops
    ensures Legal(cipher, s0, more) && (AllSaved(acts) && stopSaved && saveOk ==> AllSaved(more))
    ensures KeepsOnly(Run(cipher, s0, acts).runners, Names.Lower(oldName), cfg, kept)
    ensures var s, t := Run(cipher, s0, acts), Run(cipher, s0, more);
            && OthersAsIn(s, t, id) && !InFlight(t, id)
            && Replaces(cipher, Idle(s), t, Names.Lower(oldName), kept, bindOk, stopSaved, saveOk)
  {
    var s := Run(cipher, s0, acts);
    more, kept := UpdateBegins(cipher, s0, acts, id, oldName, cfg);
    var u := Run(cipher, s0, more);
    more := StopsAndCreates(cipher, s0, more, id, Names.Lower(oldName), bindOk, stopSaved, saveOk);
    OthersOnward(s, u, Run(cipher, s0, more), id);
  }

  // At any moment any running task may end by itself, and any operation in flight may be abandoned; the one
  // changes nothing but the tasks that run, the other nothing but the operation.
  lemma EndsAlone(cipher: Cipher, s0: Sys, acts: seq<Action>, token: nat)
    requires Legal(cipher, s0, acts) && token in Run(cipher, s0, acts).live
    ensures Legal(cipher, s0, acts + [Ends(token)])
    ensures var s := Run(cipher, s0, acts); Run(cipher, s0, acts + [Ends(token)]) == s.(live := s.live - {token})
  {
    RunExtend(cipher, s0, acts, Ends(token));
  }

  lemma AbandonAlone(cipher: Cipher, s0: Sys, acts: seq<Action>, id: nat)
    requires Legal(cipher, s0, acts) && InFlight(Run(cipher, s0, acts), id)
    ensures Legal(cipher, s0, acts + [Abandon(id)])
    ensures var s, t := Run(cipher, s0, acts), Run(cipher, s0, acts + [Abandon(id)]);
            t == s.(ops := t.ops) && OthersAsIn(s, t, id) && !InFlight(t, id)
  {
    RunExtend(cipher, s0, acts, Abandon(id));
  }
}
