/** Sessions of the application: the runner map, the stored configuration, and the operations on both (app_logic.rs). */
module Lifecycle {
  import opened Wrappers
  import opened Config
  import Names

  // Cancellation tokens, with the tasks they stop, are known by number.
  datatype RunnerEntry = RunnerEntry(
    started: Option<nat>,
    config: SessionConfig,
    proxyCancel: Option<nat>,
    sshdCancel: Option<nat>,
    sshdHandle: Option<nat>,
    hasMgr: bool)

  type Runners = map<string, RunnerEntry>

  // ---- shapes ---------------------------------------------------------------------------------

  datatype Shape = StoppedShape | ProxyShape | SessionShape

  predicate IsStopped(e: RunnerEntry) {
    e.started.None? && e.proxyCancel.None? && e.sshdCancel.None? && e.sshdHandle.None?
  }

  predicate IsProxy(e: RunnerEntry) {
    && e.started.None? && e.proxyCancel.Some? && e.sshdCancel.None? && e.sshdHandle.None? && !e.hasMgr
    && e.config.upstream.HttpProxy?
  }

  predicate IsSession(e: RunnerEntry) {
    && e.started.Some? && e.proxyCancel.None? && e.sshdCancel.Some? && e.sshdHandle.Some? && e.hasMgr
    && !e.config.upstream.HttpProxy?
    && Names.AllowedName(e.config.sshUser)
  }

  predicate HasShape(e: RunnerEntry, shape: Shape) {
    match shape
    case StoppedShape => IsStopped(e)
    case ProxyShape => IsProxy(e)
    case SessionShape => IsSession(e)
  }

  function ShapeOf(e: RunnerEntry): Shape {
    if e.proxyCancel.Some? then ProxyShape else if e.started.Some? then SessionShape else StoppedShape
  }

  // Every entry is filed under its lower-cased name and has one of the three shapes.
  predicate WellFormed(runners: Runners) {
    forall k :: k in runners ==> k == Names.Lower(runners[k].config.name) && HasShape(runners[k], ShapeOf(runners[k]))
  }

  // Whatever runs is launched at startup, and nothing else is.
  predicate FlagsAgree(runners: Runners) {
    forall k :: k in runners ==> (runners[k].config.launchOnStartup <==> !IsStopped(runners[k]))
  }

  // ---- tokens ---------------------------------------------------------------------------------

  function OptSet(t: Option<nat>): set<nat> {
    if t.Some? then {t.value} else {}
  }

  function Tokens(e: RunnerEntry): set<nat> {
    OptSet(e.started) + OptSet(e.proxyCancel) + OptSet(e.sshdCancel)
  }

  function TokensAt(runners: Runners, key: string): set<nat> {
    if key in runners then Tokens(runners[key]) else {}
  }

  // No two entries share a token, and every entry's tasks run.
  predicate TokensOwned(runners: Runners, live: set<nat>) {
    && (forall k :: k in runners ==> Tokens(runners[k]) <= live)
    && (forall j, k :: j in runners && k in runners && j != k ==> Tokens(runners[j]) !! Tokens(runners[k]))
  }

  // Every running task belongs to an entry, so that stopping the entries cancels them all. Tasks are
  // runners, accept loops of SSH servers and proxies; connections these have accepted are not.
  predicate NoOrphans(runners: Runners, live: set<nat>) {
    forall t :: t in live ==> exists k :: k in runners && t in Tokens(runners[k])
  }

  // ---- single steps on the runner map ---------------------------------------------------------

  // The handles of a session are taken out of its entry.
  function Taken(runners: Runners, key: string): Runners {
    if key in runners then
      runners[key := runners[key].(started := None, proxyCancel := None, sshdCancel := None, sshdHandle := None)]
    else runners
  }

  function Unflagged(runners: Runners, key: string): Runners {
    if key in runners then
      runners[key := runners[key].(config := runners[key].config.(launchOnStartup := false))]
    else runners
  }

  function Stopped(runners: Runners, key: string): Runners {
    Unflagged(Taken(runners, key), key)
  }

  // The entry `create_session` files, for tokens `first` and `first + 1`.
  function NewEntry(cfg: SessionConfig, first: nat): RunnerEntry {
    var c := cfg.(launchOnStartup := true);
    if cfg.upstream.HttpProxy? then RunnerEntry(None, c, Some(first), None, None, false)
    else RunnerEntry(Some(first), c, None, Some(first + 1), Some(first + 1), true)
  }

  function Inserted(runners: Runners, cfg: SessionConfig, first: nat): Runners {
    runners[Names.Lower(cfg.name) := NewEntry(cfg, first)]
  }

  // Two configurations equal but for the flag, which the first has set or not.
  predicate SameButFlag(c: SessionConfig, d: SessionConfig, flag: bool) {
    && c.name == d.name && c.password == d.password && c.sshUser == d.sshUser && c.listen == d.listen
    && c.autoReconnect == d.autoReconnect && c.ptyOverride == d.ptyOverride && c.upstream == d.upstream
    && c.launchOnStartup == flag
  }

  // All that a stop changes: the entry at `key`, if there is one, holds no tasks and has its flag cleared.
  predicate StopsOnly(before: Runners, after: Runners, key: string) {
    && after.Keys == before.Keys
    && (forall k :: k in before && k != key ==> after[k] == before[k])
    && (key in before ==>
          && after[key].started.None? && after[key].proxyCancel.None?
          && after[key].sshdCancel.None? && after[key].sshdHandle.None?
          && after[key].hasMgr == before[key].hasMgr
          && SameButFlag(after[key].config, before[key].config, false))
  }

  // All that filing a session changes: the entry under its lower-cased name, for the tokens `first` and
  // `first + 1`.
  predicate FilesOnly(before: Runners, after: Runners, cfg: SessionConfig, first: nat) {
    var key := Names.Lower(cfg.name);
    && after.Keys == before.Keys + {key}
    && (forall k :: k in before && k != key ==> after[k] == before[k])
    && SameButFlag(after[key].config, cfg, true)
    && var e := after[key];
       if cfg.upstream.HttpProxy? then
         && e.proxyCancel == Some(first)
         && e.started.None? && e.sshdCancel.None? && e.sshdHandle.None? && !e.hasMgr
       else
         && e.started == Some(first) && e.sshdCancel == e.sshdHandle == Some(first + 1)
         && e.proxyCancel.None? && e.hasMgr
  }

  // All that `update_session` changes in the configuration it is given: an empty password becomes the one
  // on file.
  predicate KeepsOnly(runners: Runners, key: string, cfg: SessionConfig, kept: SessionConfig) {
    && SameButFlag(kept.(password := cfg.password), cfg, cfg.launchOnStartup)
    && kept.password == if cfg.password == "" && key in runners then runners[key].config.password else cfg.password
  }

  lemma StoppedStopsOnly(runners: Runners, key: string)
    ensures StopsOnly(runners, Stopped(runners, key), key)
  {
  }

  lemma InsertedFilesOnly(runners: Runners, cfg: SessionConfig, first: nat)
    ensures FilesOnly(runners, Inserted(runners, cfg, first), cfg, first)
  {
  }

  // What starting a session's tasks leads to: a proxy always starts; a session needs a valid user name
  // and a free listen address, and leaves its runner alive when only the latter is missing.
  datatype Launch = Launched | BadUser | BindFailed

  function LaunchOutcome(cfg: SessionConfig, bindOk: bool): Launch {
    if cfg.upstream.HttpProxy? then Launched
    else if !Names.AllowedName(cfg.sshUser) then BadUser
    else if !bindOk then BindFailed
    else Launched
  }

  function LaunchTokens(cfg: SessionConfig, outcome: Launch, first: nat): set<nat> {
    match outcome
    case BadUser => {}
    case BindFailed => {first}
    case Launched => if cfg.upstream.HttpProxy? then {first} else {first, first + 1}
  }

  // The configuration `update_session` goes on with: an empty password keeps the old one.
  function KeepPassword(runners: Runners, oldName: string, cfg: SessionConfig): SessionConfig {
    var key := Names.Lower(oldName);
    if cfg.password == "" && key in runners then cfg.(password := runners[key].config.password) else cfg
  }

  // ---- agreement with the store ---------------------------------------------------------------

  predicate Distinct(order: seq<string>) {
    forall i, j :: 0 <= i < j < |order| ==> order[i] != order[j]
  }

  // The order in which a hash map happens to enumerate its keys.
  ghost predicate IsOrder(order: seq<string>, keys: set<string>) {
    Distinct(order) && forall k :: k in order <==> k in keys
  }

  function Listing(order: seq<string>, runners: Runners): seq<SessionConfig>
    requires forall k :: k in order ==> k in runners
  {
    seq(|order|, i requires 0 <= i < |order| => runners[order[i]].config)
  }

  // The stored list, read back, is a permutation of the configurations in the runner map.
  ghost predicate Agrees(cipher: Cipher, file: Option<seq<SessionConfig>>, runners: Runners) {
    exists order :: IsOrder(order, runners.Keys) && Load(cipher, file) == Listing(order, runners)
  }

  // The stored list holds every configuration of the map once, with its passwords encrypted.
  predicate StoredInOrder(cipher: Cipher, list: seq<SessionConfig>, order: seq<string>, runners: Runners)
    requires forall k :: k in order ==> k in runners
  {
    && |list| == |order|
    && forall i :: 0 <= i < |order| ==> Rewritten(cipher.encrypt, runners[order[i]].config, list[i])
  }

  ghost predicate Stores(cipher: Cipher, file: Option<seq<SessionConfig>>, runners: Runners) {
    file.Some? && exists order :: IsOrder(order, runners.Keys) && StoredInOrder(cipher, file.value, order, runners)
  }

  lemma SavedStores(cipher: Cipher, order: seq<string>, runners: Runners)
    requires IsOrder(order, runners.Keys)
    ensures Stores(cipher, Some(MapAll(cipher.encrypt, Listing(order, runners))), runners)
  {
    MapAllRewrites(cipher.encrypt, Listing(order, runners));
    assert StoredInOrder(cipher, MapAll(cipher.encrypt, Listing(order, runners)), order, runners);
  }

  lemma SavedAgrees(cipher: Cipher, order: seq<string>, runners: Runners)
    requires Inverse(cipher) && IsOrder(order, runners.Keys)
    ensures Agrees(cipher, Some(MapAll(cipher.encrypt, Listing(order, runners))), runners)
  {
    SaveThenLoad(cipher, Listing(order, runners));
  }

  predicate SameConfigs(a: Runners, b: Runners) {
    a.Keys == b.Keys && forall k :: k in a && k in b ==> a[k].config == b[k].config
  }

  lemma SameConfigsAgree(cipher: Cipher, file: Option<seq<SessionConfig>>, runners: Runners, after: Runners)
    requires Agrees(cipher, file, runners) && SameConfigs(after, runners)
    ensures Agrees(cipher, file, after)
  {
    var order :| IsOrder(order, runners.Keys) && Load(cipher, file) == Listing(order, runners);
    assert Listing(order, after) == Listing(order, runners);
  }

  lemma ListingKey(order: seq<string>, runners: Runners, i: nat)
    requires WellFormed(runners) && IsOrder(order, runners.Keys) && i < |order|
    ensures order[i] in runners && order[i] == Names.Lower(Listing(order, runners)[i].name)
  {
    assert order[i] in order;
  }

  // A file tells the configurations: two well-formed maps that agree with it have the same.
  lemma AgreeAlike(cipher: Cipher, file: Option<seq<SessionConfig>>, a: Runners, b: Runners)
    requires WellFormed(a) && WellFormed(b) && Agrees(cipher, file, a) && Agrees(cipher, file, b)
    ensures SameConfigs(a, b)
  {
    var list := Load(cipher, file);
    var o :| IsOrder(o, a.Keys) && list == Listing(o, a);
    var p :| IsOrder(p, b.Keys) && list == Listing(p, b);
    forall i | 0 <= i < |list| ensures o[i] == p[i] && o[i] in a && o[i] in b && a[o[i]].config == b[o[i]].config {
      ListingKey(o, a, i);
      ListingKey(p, b, i);
    }
    assert o == p;
    forall k | k in a || k in b ensures k in a && k in b && a[k].config == b[k].config {
      assert k in o;
      var i :| 0 <= i < |o| && o[i] == k;
    }
  }

  // ---- what the steps keep --------------------------------------------------------------------

  lemma StepsKeepWellFormed(runners: Runners, key: string, cfg: SessionConfig, first: nat)
    requires WellFormed(runners)
    ensures WellFormed(Taken(runners, key)) && WellFormed(Unflagged(runners, key)) && WellFormed(runners - {key})
    ensures LaunchOutcome(cfg, true) == Launched ==> WellFormed(Inserted(runners, cfg, first))
  {
  }

  lemma StepsKeepFlags(runners: Runners, key: string, cfg: SessionConfig, first: nat)
    requires FlagsAgree(runners)
    ensures FlagsAgree(Stopped(runners, key)) && FlagsAgree(runners - {key})
    ensures FlagsAgree(Inserted(runners, cfg, first))
  {
  }

  // What holds between operations carried out one after the other; `next` is the next fresh token.
  predicate Sound(runners: Runners, live: set<nat>, next: nat) {
    && WellFormed(runners) && FlagsAgree(runners)
    && (forall t :: t in live ==> t < next)
    && TokensOwned(runners, live)
  }

  lemma StopSound(runners: Runners, live: set<nat>, next: nat, key: string)
    requires Sound(runners, live, next)
    ensures Sound(Stopped(runners, key), live - TokensAt(runners, key), next)
  {
    StepsKeepFlags(runners, key, NoConfig(), 0);
    StepsKeepWellFormed(runners, key, NoConfig(), 0);
    StepsKeepWellFormed(Taken(runners, key), key, NoConfig(), 0);
    StopOwned(runners, key, live);
  }

  lemma RemoveSound(runners: Runners, live: set<nat>, next: nat, key: string)
    requires Sound(runners, live, next)
    ensures Sound(runners - {key}, live, next)
  {
  }

  // Tasks started for tokens `next` and `next + 1`, whether or not an entry is filed for them.
  lemma StartSound(runners: Runners, live: set<nat>, next: nat, cfg: SessionConfig, outcome: Launch)
    requires Sound(runners, live, next)
    ensures Sound(runners, live + LaunchTokens(cfg, outcome, next), next + 2)
  {
  }

  lemma InsertSound(runners: Runners, live: set<nat>, next: nat, cfg: SessionConfig)
    requires Sound(runners, live, next) && LaunchOutcome(cfg, true).Launched?
    ensures Sound(Inserted(runners, cfg, next), live + LaunchTokens(cfg, Launched, next), next + 2)
  {
    StepsKeepFlags(runners, "", cfg, next);
    StepsKeepWellFormed(runners, "", cfg, next);
    EntryOwned(runners, live, next, Names.Lower(cfg.name), NewEntry(cfg, next));
  }

  // An entry with fresh tokens takes the place of whatever its key held.
  lemma EntryOwned(runners: Runners, live: set<nat>, next: nat, key: string, e: RunnerEntry)
    requires TokensOwned(runners, live) && (forall t :: t in live ==> t < next)
    requires Tokens(e) <= {next, next + 1}
    ensures TokensOwned(runners[key := e], live + Tokens(e))
  {
  }

  lemma StopOwned(runners: Runners, key: string, live: set<nat>)
    requires TokensOwned(runners, live)
    ensures TokensOwned(Stopped(runners, key), live - TokensAt(runners, key))
  {
  }

  // Filing an entry over a stopped one leaves no trace of it.
  lemma InsertOverStopped(runners: Runners, cfg: SessionConfig, first: nat)
    ensures Inserted(Stopped(runners, Names.Lower(cfg.name)), cfg, first) == Inserted(runners, cfg, first)
  {
  }

  // What the startup loop hands over: the map, the tasks it has started, the next fresh token.
  datatype Started = Started(runners: Runners, live: set<nat>, next: nat)

  // ---- the operations -------------------------------------------------------------------------

  datatype AppError = NotFound | LaunchError(why: Launch) | SaveFailed

  // What a create returns to its caller.
  function CreateResult(cfg: SessionConfig, bindOk: bool, saveOk: bool): Result<string, AppError> {
    var outcome := LaunchOutcome(cfg, bindOk);
    if !outcome.Launched? then Failure(LaunchError(outcome))
    else if saveOk then Success(cfg.name)
    else Failure(SaveFailed)
  }

  // The map after a create.
  function CreateMap(runners: Runners, cfg: SessionConfig, bindOk: bool, first: nat): Runners {
    if LaunchOutcome(cfg, bindOk).Launched? then Inserted(runners, cfg, first) else runners
  }

  // The same case by case: a proxy always starts; a session needs a valid user name, and a free listen
  // address, for want of which its runner is left running; what has started is filed, also when the save
  // fails.
  predicate CreateDoes(before: Runners, live: set<nat>, next: nat, cfg: SessionConfig, bindOk: bool, saveOk: bool,
                       after: Runners, liveAfter: set<nat>, r: Result<string, AppError>) {
    var proxy, user := cfg.upstream.HttpProxy?, Names.AllowedName(cfg.sshUser);
    if !proxy && !user then
      after == before && liveAfter == live && r == Failure(LaunchError(BadUser))
    else if !proxy && !bindOk then
      after == before && liveAfter == live + {next} && r == Failure(LaunchError(BindFailed))
    else
      && FilesOnly(before, after, cfg, next)
      && liveAfter == live + (if proxy then {next} else {next, next + 1})
      && r == if saveOk then Success(cfg.name) else Failure(SaveFailed)
  }

  lemma CreateCases(before: Runners, live: set<nat>, next: nat, cfg: SessionConfig, bindOk: bool, saveOk: bool)
    ensures CreateDoes(before, live, next, cfg, bindOk, saveOk, CreateMap(before, cfg, bindOk, next),
                       live + LaunchTokens(cfg, LaunchOutcome(cfg, bindOk), next), CreateResult(cfg, bindOk, saveOk))
  {
    InsertedFilesOnly(before, cfg, next);
  }

  function SaveResult(saveOk: bool): Result<(), AppError> {
    if saveOk then Success(()) else Failure(SaveFailed)
  }

  class AppState {
    const cipher: Cipher
    var runners: Runners
    var file: Option<seq<SessionConfig>>
    var live: set<nat>  // tokens whose tasks run
    var next: nat

    ghost predicate Valid()
      reads this
    {
      Inverse(cipher) && Sound(runners, live, next)
    }

    // The state `main` sets up from what the startup loop has built.
    constructor (cipher: Cipher, file: Option<seq<SessionConfig>>, started: Started)
      requires Inverse(cipher) && Sound(started.runners, started.live, started.next)
      ensures Valid() && this.cipher == cipher && this.file == file
      ensures runners == started.runners && live == started.live && next == started.next
    {
      this.cipher, this.file := cipher, file;
      runners, live, next := started.runners, started.live, started.next;
    }

    // The snapshot is taken and written while the map is locked; the write replaces the file or fails.
    method PersistNow(saveOk: bool) returns (r: Result<(), AppError>)
      requires Inverse(cipher)
      modifies this`file
      ensures r == (if saveOk then Success(()) else Failure(SaveFailed))
      ensures r.Success? ==> Agrees(cipher, file, runners) && Stores(cipher, file, runners)
      ensures r.Failure? ==> file == old(file)
    {
      ghost var order: seq<string> := [];
      var sessions: seq<SessionConfig> := [];
      var keys := runners.Keys;
      while keys != {}
        invariant keys <= runners.Keys && Distinct(order)
        invariant forall k :: k in order <==> k in runners && k !in keys
        invariant sessions == Listing(order, runners)
      {
        var k :| k in keys;
        order := order + [k];
        sessions := sessions + [runners[k].config];
        keys := keys - {k};
      }
      var list := new SessionConfig[|sessions|](i requires 0 <= i < |sessions| => sessions[i]);
      assert list[..] == sessions;
      RewritePasswords(cipher.encrypt, list);
      if !saveOk {
        return Failure(SaveFailed);
      }
      file := Some(list[..]);
      SavedAgrees(cipher, order, runners);
      SavedStores(cipher, order, runners);
      return Success(());
    }

    method CreateSession(cfg: SessionConfig, bindOk: bool, saveOk: bool) returns (r: Result<string, AppError>)
      requires Valid()
      modifies this
      ensures Valid() && next == old(next) + 2
      ensures r == CreateResult(cfg, bindOk, saveOk)
      ensures live == old(live) + LaunchTokens(cfg, LaunchOutcome(cfg, bindOk), old(next))
      ensures runners == CreateMap(old(runners), cfg, bindOk, old(next))
      ensures CreateDoes(old(runners), old(live), old(next), cfg, bindOk, saveOk, runners, live, r)
      ensures r.Success? ==> Agrees(cipher, file, runners) && Stores(cipher, file, runners)
      ensures r.Failure? ==> file == old(file)
    {
      var first := next;
      next := next + 2;
      CreateCases(runners, live, first, cfg, bindOk, saveOk);
      StartSound(runners, live, first, cfg, LaunchOutcome(cfg, bindOk));
      if cfg.upstream.HttpProxy? {
        live := live + {first};
      } else {
        if !Names.AllowedName(cfg.sshUser) {
          return Failure(LaunchError(BadUser));
        }
        live := live + {first};
        if !bindOk {
          return Failure(LaunchError(BindFailed));
        }
        live := live + {first + 1};
      }
      assert live == old(live) + LaunchTokens(cfg, Launched, first);
      InsertSound(runners, old(live), first, cfg);
      runners := Inserted(runners, cfg, first);
      var saved := PersistNow(saveOk);
      return if saved.Success? then Success(cfg.name) else Failure(SaveFailed);
    }

    // Cancel a session's tasks, take its handles, clear its flag.
    method EndTasks(key: string)
      requires Valid()
      modifies this`runners, this`live
      ensures Valid() && runners == Stopped(old(runners), key) && live == old(live) - TokensAt(old(runners), key)
    {
      StopSound(runners, live, next, key);
      if key in runners {
        live := live - Tokens(runners[key]);
      }
      runners := Taken(runners, key);
      runners := Unflagged(runners, key);
    }

    method StopSession(name: string, saveOk: bool) returns (r: Result<(), AppError>)
      requires Valid()
      modifies this`runners, this`file, this`live
      ensures Valid() && r == SaveResult(saveOk)
      ensures runners == Stopped(old(runners), Names.Lower(name))
      ensures StopsOnly(old(runners), runners, Names.Lower(name))
      ensures live == old(live) - TokensAt(old(runners), Names.Lower(name))
      ensures r.Success? ==> Agrees(cipher, file, runners) && Stores(cipher, file, runners)
      ensures r.Failure? ==> file == old(file)
    {
      StoppedStopsOnly(runners, Names.Lower(name));
      EndTasks(Names.Lower(name));
      r := PersistNow(saveOk);
    }

    // Two saves: when the first one fails the session is stopped and stays listed.
    method DeleteSession(name: string, stopSaved: bool, saveOk: bool) returns (r: Result<(), AppError>)
      requires Valid()
      modifies this`runners, this`file, this`live
      ensures Valid() && r == SaveResult(stopSaved && saveOk)
      ensures var key := Names.Lower(name);
              && live == old(live) - TokensAt(old(runners), key)
              && runners == (if stopSaved then old(runners) - {key} else Stopped(old(runners), key))
              && (!stopSaved ==> file == old(file))
              && (stopSaved && !saveOk ==> Agrees(cipher, file, Stopped(old(runners), key)))
      ensures r.Success? ==> Agrees(cipher, file, runners) && Stores(cipher, file, runners)
    {
      var key := Names.Lower(name);
      ghost var before := runners;
      r := StopSession(name, stopSaved);
      if r.Failure? {
        return;
      }
      RemoveSound(runners, live, next, key);
      StoppedRemoved(before, key);
      runners := runners - {key};
      r := PersistNow(saveOk);
    }

    // The session comes back under the configuration it had, with fresh tasks.
    method RestartSession(name: string, bindOk: bool, stopSaved: bool, saveOk: bool)
      returns (r: Result<string, AppError>)
      requires Valid()
      modifies this
      ensures Valid()
      ensures var key := Names.Lower(name);
              if key !in old(runners) then
                r == Failure(NotFound) && unchanged(this)
              else if !stopSaved then
                && r == Failure(SaveFailed) && runners == Stopped(old(runners), key) && file == old(file)
                && live == old(live) - TokensAt(old(runners), key)
              else
                var cfg := old(runners)[key].config;
                var outcome := LaunchOutcome(cfg, bindOk);
                && r == CreateResult(cfg, bindOk, saveOk)
                && live == old(live) - TokensAt(old(runners), key) + LaunchTokens(cfg, outcome, old(next))
                && runners == (if outcome.Launched? then Inserted(old(runners), cfg, old(next))
                               else Stopped(old(runners), key))
      ensures r.Success? ==> Agrees(cipher, file, runners) && Stores(cipher, file, runners)
    {
      var key := Names.Lower(name);
      if key !in runners {
        return Failure(NotFound);
      }
      var cfg := runners[key].config;
      InsertOverStopped(runners, cfg, next);
      var stopped := StopSession(name, stopSaved);
      if stopped.Failure? {
        return Failure(SaveFailed);
      }
      r := CreateSession(cfg, bindOk, saveOk);
    }

    // A new name adds an entry and leaves the old one behind, stopped.
    method UpdateSession(oldName: string, cfg: SessionConfig, bindOk: bool, stopSaved: bool, saveOk: bool)
      returns (r: Result<string, AppError>)
      requires Valid()
      modifies this
      ensures Valid()
      ensures var key := Names.Lower(oldName);
              var kept := KeepPassword(old(runners), oldName, cfg);
              KeepsOnly(old(runners), key, cfg, kept) &&
              if !stopSaved then
                && r == Failure(SaveFailed) && runners == Stopped(old(runners), key) && file == old(file)
                && live == old(live) - TokensAt(old(runners), key)
              else
                && r == CreateResult(kept, bindOk, saveOk)
                && live == old(live) - TokensAt(old(runners), key)
                           + LaunchTokens(kept, LaunchOutcome(kept, bindOk), old(next))
                && runners == CreateMap(Stopped(old(runners), key), kept, bindOk, old(next))
      ensures r.Success? ==> Agrees(cipher, file, runners) && Stores(cipher, file, runners)
    {
      var kept := cfg;
      if cfg.password == "" {
        var key := Names.Lower(oldName);
        if key in runners {
          kept := cfg.(password := runners[key].config.password);
        }
      }
      var stopped := StopSession(oldName, stopSaved);
      if stopped.Failure? {
        return Failure(SaveFailed);
      }
      r := CreateSession(kept, bindOk, saveOk);
    }
  }

  lemma StoppedRemoved(runners: Runners, key: string)
    ensures Stopped(runners, key) - {key} == runners - {key}
  {
  }

  // Any configuration will do where only the runner map matters.
  function NoConfig(): SessionConfig {
    SessionConfig("", "", "", "", false, false, None, Loopback)
  }

  // ---- orphaned tasks -------------------------------------------------------------------------

  // A stop carried out alone leaves nothing behind.
  lemma StopLeavesNoOrphans(runners: Runners, live: set<nat>, key: string)
    requires TokensOwned(runners, live) && NoOrphans(runners, live)
    ensures NoOrphans(Stopped(runners, key), live - TokensAt(runners, key))
  {
    forall t | t in live - TokensAt(runners, key)
      ensures exists k :: k in Stopped(runners, key) && t in Tokens(Stopped(runners, key)[k])
    {
      var k :| k in runners && t in Tokens(runners[k]);
      assert k in Stopped(runners, key) && Stopped(runners, key)[k] == runners[k];
    }
  }

  // A session under this name is running.
  predicate RunningAt(runners: Runners, key: string) {
    key in runners && !IsStopped(runners[key])
  }

  // Creating a session overwrites an entry without cancelling it, and gives up on a busy listen address
  // without stopping the runner. So every running task still belongs to an entry after a create carried
  // out alone exactly when the listen address was free and no session of that name was running.
  lemma CreateLeavesNoOrphansIff(runners: Runners, live: set<nat>, cfg: SessionConfig, bindOk: bool, first: nat)
    requires WellFormed(runners) && TokensOwned(runners, live) && NoOrphans(runners, live)
    requires first !in live && first + 1 !in live
    ensures var outcome := LaunchOutcome(cfg, bindOk);
            NoOrphans(CreateMap(runners, cfg, bindOk, first), live + LaunchTokens(cfg, outcome, first)) <==>
              !outcome.BindFailed? && (outcome.Launched? ==> !RunningAt(runners, Names.Lower(cfg.name)))
  {
    var outcome := LaunchOutcome(cfg, bindOk);
    var key := Names.Lower(cfg.name);
    match outcome
    case BadUser => assert live + LaunchTokens(cfg, outcome, first) == live;
    case BindFailed => assert first in live + LaunchTokens(cfg, outcome, first);
    case Launched => OverwriteOrphans(runners, live, cfg, first);
  }

  lemma OverwriteOrphans(runners: Runners, live: set<nat>, cfg: SessionConfig, first: nat)
    requires WellFormed(runners) && TokensOwned(runners, live) && NoOrphans(runners, live)
    requires first !in live && first + 1 !in live
    ensures NoOrphans(Inserted(runners, cfg, first), live + LaunchTokens(cfg, Launched, first)) <==>
              !RunningAt(runners, Names.Lower(cfg.name))
  {
    assert Tokens(NewEntry(cfg, first)) == LaunchTokens(cfg, Launched, first);
    ReplaceOrphans(runners, live, Names.Lower(cfg.name), NewEntry(cfg, first));
  }

  // Overwriting an entry orphans exactly the tasks it held.
  lemma ReplaceOrphans(runners: Runners, live: set<nat>, key: string, e: RunnerEntry)
    requires TokensOwned(runners, live) && NoOrphans(runners, live) && Tokens(e) !! live
    ensures NoOrphans(runners[key := e], live + Tokens(e)) <==> TokensAt(runners, key) == {}
  {
    var after := runners[key := e];
    if t :| t in TokensAt(runners, key) {
      assert t in live + Tokens(e);
      forall k | k in after ensures t !in Tokens(after[k]) {
      }
    } else {
      forall t | t in live + Tokens(e) ensures exists k :: k in after && t in Tokens(after[k]) {
        if t in live {
          var k :| k in runners && t in Tokens(runners[k]);
          assert t !in TokensAt(runners, key);
          assert after[k] == runners[k];
        } else {
          assert key in after && t in Tokens(after[key]);
        }
      }
    }
  }

  // An update stops the session it was given first. Its own name is then free, but not another one: after
  // an update carried out alone every running task still belongs to an entry exactly when the listen
  // address was free and the session was not renamed onto another running one.
  lemma UpdateLeavesNoOrphansIff(runners: Runners, live: set<nat>, key: string, cfg: SessionConfig, bindOk: bool,
                                 first: nat)
    requires WellFormed(runners) && TokensOwned(runners, live) && NoOrphans(runners, live)
    requires first !in live && first + 1 !in live
    ensures var outcome := LaunchOutcome(cfg, bindOk);
            var target := Names.Lower(cfg.name);
            var after := CreateMap(Stopped(runners, key), cfg, bindOk, first);
            NoOrphans(after, live - TokensAt(runners, key) + LaunchTokens(cfg, outcome, first)) <==>
              !outcome.BindFailed? && (outcome.Launched? ==> target == key || !RunningAt(runners, target))
  {
    StopLeavesNoOrphans(runners, live, key);
    StopOwned(runners, key, live);
    StepsKeepWellFormed(runners, key, cfg, first);
    StepsKeepWellFormed(Taken(runners, key), key, cfg, first);
    CreateLeavesNoOrphansIff(Stopped(runners, key), live - TokensAt(runners, key), cfg, bindOk, first);
  }

  // A restart goes on under the name it has stopped, so only a listen address taken in between leaves an
  // orphan.
  lemma RestartLeavesNoOrphansIff(runners: Runners, live: set<nat>, key: string, bindOk: bool, first: nat)
    requires WellFormed(runners) && TokensOwned(runners, live) && NoOrphans(runners, live) && key in runners
    requires first !in live && first + 1 !in live
    ensures var cfg := runners[key].config;
            var outcome := LaunchOutcome(cfg, bindOk);
            var after := CreateMap(Stopped(runners, key), cfg, bindOk, first);
            NoOrphans(after, live - TokensAt(runners, key) + LaunchTokens(cfg, outcome, first)) <==>
              !outcome.BindFailed?
  {
    UpdateLeavesNoOrphansIff(runners, live, key, runners[key].config, bindOk, first);
  }
}
