/** The startup loop of main.rs: what it makes of the stored sessions, and what a restart of the application keeps. */
module Startup {
  import opened Wrappers
  import opened Config
  import opened Lifecycle
  import Names

  // The entry filed for one stored session.
  function StartupEntry(s: SessionConfig, first: nat): RunnerEntry {
    if !s.launchOnStartup then RunnerEntry(None, s, None, None, None, false) else NewEntry(s, first)
  }

  // A stored session can be started again, given its listen address.
  predicate Startable(s: SessionConfig) {
    s.launchOnStartup ==> s.upstream.HttpProxy? || Names.AllowedName(s.sshUser)
  }

  predicate Listens(s: SessionConfig) {
    s.launchOnStartup && !s.upstream.HttpProxy?
  }

  predicate AllStartable(list: seq<SessionConfig>) {
    forall i :: 0 <= i < |list| ==> Startable(list[i])
  }

  predicate DistinctNames(list: seq<SessionConfig>) {
    forall i, j :: 0 <= i < j < |list| ==> Names.Lower(list[i].name) != Names.Lower(list[j].name)
  }

  // A launched session is listed again further down, under the same name up to case.
  predicate ListedTwice(list: seq<SessionConfig>) {
    exists i, j :: 0 <= i < j < |list| && SameName(list[i], list[j]) && list[i].launchOnStartup
  }

  predicate LaunchedAs(list: seq<SessionConfig>, key: string) {
    exists i :: 0 <= i < |list| && key == Names.Lower(list[i].name) && list[i].launchOnStartup
  }

  predicate SameName(s: SessionConfig, t: SessionConfig) {
    Names.Lower(s.name) == Names.Lower(t.name)
  }

  predicate Listed(list: seq<SessionConfig>, key: string) {
    exists i :: 0 <= i < |list| && key == Names.Lower(list[i].name)
  }

  // No later session has the name of this one.
  predicate LastAt(list: seq<SessionConfig>, i: nat)
    requires i < |list|
  {
    forall j :: i < j < |list| ==> !SameName(list[i], list[j])
  }

  // The map holds what the startup loop files for `s`.
  ghost predicate Filed(m: Runners, s: SessionConfig) {
    Names.Lower(s.name) in m && exists first :: m[Names.Lower(s.name)] == StartupEntry(s, first)
  }

  // The map holds one entry for every listed name, the last one listed, and no other.
  ghost predicate Rebuilt(m: Runners, list: seq<SessionConfig>) {
    && (forall i :: 0 <= i < |list| && LastAt(list, i) ==> Filed(m, list[i]))
    && (forall k :: k in m ==> Listed(list, k))
  }

  lemma LastListed(list: seq<SessionConfig>, key: string) returns (i: nat)
    requires Listed(list, key)
    ensures i < |list| && key == Names.Lower(list[i].name) && LastAt(list, i)
  {
    i := |list| - 1;
    while Names.Lower(list[i].name) != key
      invariant i < |list| && forall j :: i < j < |list| ==> Names.Lower(list[j].name) != key
      decreases i
    {
      assert exists k :: 0 <= k < i && key == Names.Lower(list[k].name);
      i := i - 1;
    }
  }

  // ---- one session more -----------------------------------------------------------------------

  // All sessions but the last one listed.
  function Front(list: seq<SessionConfig>): (front: seq<SessionConfig>)
    requires list != []
    ensures |front| == |list| - 1 && forall i :: 0 <= i < |front| ==> front[i] == list[i]
  {
    list[..|list| - 1]
  }

  lemma RebuiltGrows(m: Runners, list: seq<SessionConfig>, first: nat)
    requires list != [] && Rebuilt(m, Front(list))
    ensures var s := list[|list| - 1];
            Rebuilt(m[Names.Lower(s.name) := StartupEntry(s, first)], list)
  {
    var front, s := Front(list), list[|list| - 1];
    var key := Names.Lower(s.name);
    var after := m[key := StartupEntry(s, first)];
    forall i | 0 <= i < |list| && LastAt(list, i) ensures Filed(after, list[i]) {
      if i < |front| {
        assert !SameName(list[i], s);
        assert LastAt(front, i);
        assert Filed(m, front[i]);
        assert after[Names.Lower(list[i].name)] == m[Names.Lower(list[i].name)];
      } else {
        assert after[key] == StartupEntry(s, first);
      }
    }
    forall k | k in after ensures Listed(list, k) {
      if k != key {
        var i :| 0 <= i < |front| && k == Names.Lower(front[i].name);
        assert list[i] == front[i];
      }
    }
  }

  lemma StartupSound(m: Runners, live: set<nat>, next: nat, s: SessionConfig)
    requires Sound(m, live, next) && Startable(s)
    ensures var e := StartupEntry(s, next);
            Sound(m[Names.Lower(s.name) := e], live + Tokens(e), next + 2)
  {
    EntryOwned(m, live, next, Names.Lower(s.name), StartupEntry(s, next));
  }

  // The entry a new session replaces holds tasks exactly when a launched session of that name was listed.
  lemma ReplacedHoldsTasks(m: Runners, list: seq<SessionConfig>, key: string)
    requires Rebuilt(m, list) && !ListedTwice(list)
    ensures TokensAt(m, key) != {} <==> LaunchedAs(list, key)
  {
    if Listed(list, key) {
      var last := LastListed(list, key);
      assert Filed(m, list[last]);
      var first :| m[key] == StartupEntry(list[last], first);
      assert list[last].launchOnStartup ==> first in Tokens(m[key]);
      forall i | 0 <= i < |list| && key == Names.Lower(list[i].name) && list[i].launchOnStartup ensures i == last {
        assert SameName(list[i], list[last]) && SameName(list[last], list[i]);
      }
    }
  }

  lemma ListedTwiceLast(list: seq<SessionConfig>)
    requires list != []
    ensures ListedTwice(list) <==>
              ListedTwice(Front(list)) || LaunchedAs(Front(list), Names.Lower(list[|list| - 1].name))
  {
    var front, n := Front(list), |list| - 1;
    if ListedTwice(list) {
      var i, j :| 0 <= i < j < |list| && SameName(list[i], list[j]) && list[i].launchOnStartup;
      if j < n {
        assert SameName(front[i], front[j]) && front[i].launchOnStartup;
      } else {
        assert Names.Lower(list[n].name) == Names.Lower(front[i].name) && front[i].launchOnStartup;
      }
    }
    if ListedTwice(front) {
      var i, j :| 0 <= i < j < |front| && SameName(front[i], front[j]) && front[i].launchOnStartup;
      assert SameName(list[i], list[j]) && list[i].launchOnStartup;
    }
    if LaunchedAs(front, Names.Lower(list[n].name)) {
      var i :| 0 <= i < |front| && Names.Lower(list[n].name) == Names.Lower(front[i].name) && front[i].launchOnStartup;
      assert SameName(list[i], list[n]) && list[i].launchOnStartup;
    }
  }

  lemma OrphanRemains(m: Runners, live: set<nat>, key: string, e: RunnerEntry)
    requires !NoOrphans(m, live) && Tokens(e) !! live
    ensures !NoOrphans(m[key := e], live + Tokens(e))
  {
    var t :| t in live && forall k :: k in m ==> t !in Tokens(m[k]);
    var after := m[key := e];
    assert t in live + Tokens(e) && forall k :: k in after ==> t !in Tokens(after[k]);
  }

  // Startup loses track of tasks exactly when a launched session is listed again.
  lemma ReplaceOrphansIff(m: Runners, live: set<nat>, next: nat, list: seq<SessionConfig>)
    requires list != [] && Sound(m, live, next) && Rebuilt(m, Front(list))
    requires NoOrphans(m, live) <==> !ListedTwice(Front(list))
    ensures var s := list[|list| - 1];
            var e := StartupEntry(s, next);
            NoOrphans(m[Names.Lower(s.name) := e], live + Tokens(e)) <==> !ListedTwice(list)
  {
    var s := list[|list| - 1];
    var key, e := Names.Lower(s.name), StartupEntry(s, next);
    ListedTwiceLast(list);
    if NoOrphans(m, live) {
      ReplacedHoldsTasks(m, Front(list), key);
      ReplaceOrphans(m, live, key, e);
    } else {
      OrphanRemains(m, live, key, e);
    }
  }

  // The state after the sessions `list` have been started, each from two fresh tokens.
  function StartedFrom(list: seq<SessionConfig>): Started
    decreases |list|
  {
    if list == [] then Started(map[], {}, 0)
    else
      var s := list[|list| - 1];
      var before := StartedFrom(Front(list));
      var e := StartupEntry(s, before.next);
      Started(before.runners[Names.Lower(s.name) := e], before.live + Tokens(e), before.next + 2)
  }

  // It is what the operations expect ...
  lemma {:induction false} StartedIsSound(list: seq<SessionConfig>)
    requires AllStartable(list)
    ensures Sound(StartedFrom(list).runners, StartedFrom(list).live, StartedFrom(list).next)
    decreases |list|
  {
    if list != [] {
      var before := StartedFrom(Front(list));
      StartedIsSound(Front(list));
      StartupSound(before.runners, before.live, before.next, list[|list| - 1]);
    }
  }

  // ... holds the listed sessions ...
  lemma {:induction false} StartedIsRebuilt(list: seq<SessionConfig>)
    ensures Rebuilt(StartedFrom(list).runners, list)
    decreases |list|
  {
    if list != [] {
      var before := StartedFrom(Front(list));
      StartedIsRebuilt(Front(list));
      RebuiltGrows(before.runners, list, before.next);
    }
  }

  // ... and has lost track of a running task exactly when a launched session is listed again.
  lemma {:induction false} StartedOrphansIff(list: seq<SessionConfig>)
    requires AllStartable(list)
    ensures NoOrphans(StartedFrom(list).runners, StartedFrom(list).live) <==> !ListedTwice(list)
    decreases |list|
  {
    if list != [] {
      var before := StartedFrom(Front(list));
      StartedOrphansIff(Front(list));
      StartedIsSound(Front(list));
      StartedIsRebuilt(Front(list));
      ReplaceOrphansIff(before.runners, before.live, before.next, list);
    }
  }

  // ---- the loop -------------------------------------------------------------------------------

  // One stored session: left stopped, or its tasks started for tokens `next` and `next + 1`.
  method StartStored(s: SessionConfig, bindOk: bool, next: nat) returns (e: Option<RunnerEntry>)
    ensures e == if Startable(s) && (Listens(s) ==> bindOk) then Some(StartupEntry(s, next)) else None
    ensures e.None? <==>
              s.launchOnStartup && !s.upstream.HttpProxy? && (!Names.AllowedName(s.sshUser) || !bindOk)
    ensures e.Some? ==>
              && e.value.config == s
              && if !s.launchOnStartup then IsStopped(e.value) && !e.value.hasMgr
                 else if s.upstream.HttpProxy? then IsProxy(e.value) && e.value.proxyCancel == Some(next)
                 else
                   && IsSession(e.value) && e.value.started == Some(next)
                   && e.value.sshdCancel == e.value.sshdHandle == Some(next + 1)
  {
    if !s.launchOnStartup {
      return Some(RunnerEntry(None, s, None, None, None, false));
    }
    if s.upstream.HttpProxy? {
      return Some(RunnerEntry(None, s, Some(next), None, None, false));
    }
    if !Names.AllowedName(s.sshUser) || !bindOk {
      return None;
    }
    return Some(RunnerEntry(Some(next), s, None, Some(next + 1), Some(next + 1), true));
  }

  // `bindOk` says for each listed session whether its listen address is free when its turn comes. The
  // loop stops the program at the first session that cannot be started.
  method StartAll(list: seq<SessionConfig>, bindOk: nat -> bool) returns (r: Option<Started>)
    ensures r.Some? <==> forall i :: 0 <= i < |list| ==> Startable(list[i]) && (Listens(list[i]) ==> bindOk(i))
    ensures r.Some? <==> forall i :: 0 <= i < |list| ==>
              || !list[i].launchOnStartup || list[i].upstream.HttpProxy?
              || (Names.AllowedName(list[i].sshUser) && bindOk(i))
    ensures r.Some? ==> r.value == StartedFrom(list)
  {
    var m: Runners, live: set<nat>, next := map[], {}, 0;
    for i := 0 to |list|
      invariant forall k :: 0 <= k < i ==> Startable(list[k]) && (Listens(list[k]) ==> bindOk(k))
      invariant Started(m, live, next) == StartedFrom(list[..i])
    {
      var e := StartStored(list[i], bindOk(i), next);
      if e.None? {
        return None;
      }
      assert Front(list[..i + 1]) == list[..i];
      m, live, next := m[Names.Lower(list[i].name) := e.value], live + Tokens(e.value), next + 2;
    }
    assert list[..|list|] == list;
    return Some(Started(m, live, next));
  }

  // `main` up to the point where requests are served.
  method Boot(cipher: Cipher, file: Option<seq<SessionConfig>>, bindOk: nat -> bool) returns (app: Option<AppState>)
    requires Inverse(cipher)
    ensures var list := Load(cipher, file);
            && (app.Some? <==> forall i :: 0 <= i < |list| ==> Startable(list[i]) && (Listens(list[i]) ==> bindOk(i)))
            && (app.Some? ==>
                  && fresh(app.value) && app.value.Valid() && app.value.cipher == cipher && app.value.file == file
                  && Rebuilt(app.value.runners, list)
                  && (Agrees(cipher, file, app.value.runners) <==> DistinctNames(list))
                  && (NoOrphans(app.value.runners, app.value.live) <==> !ListedTwice(list)))
  {
    var started := StartAll(Load(cipher, file), bindOk);
    if started.None? {
      return None;
    }
    StartedIsSound(Load(cipher, file));
    StartedIsRebuilt(Load(cipher, file));
    StartedOrphansIff(Load(cipher, file));
    AgreesIffDistinct(cipher, file, started.value.runners);
    var state := new AppState(cipher, file, started.value);
    return Some(state);
  }

  // ---- what startup makes of the stored file --------------------------------------------------

  // From any stored list that can be started at all: well-formed entries, and flags that agree with what
  // runs.
  lemma RebuiltShapes(m: Runners, list: seq<SessionConfig>)
    requires Rebuilt(m, list) && AllStartable(list)
    ensures WellFormed(m) && FlagsAgree(m)
  {
    forall k | k in m
      ensures k == Names.Lower(m[k].config.name) && HasShape(m[k], ShapeOf(m[k]))
      ensures m[k].config.launchOnStartup <==> !IsStopped(m[k])
    {
      var i := LastListed(list, k);
      assert Filed(m, list[i]) && Startable(list[i]);
    }
  }

  function LowerNames(list: seq<SessionConfig>): seq<string> {
    seq(|list|, i requires 0 <= i < |list| => Names.Lower(list[i].name))
  }

  lemma FiledAt(m: Runners, list: seq<SessionConfig>, i: nat)
    requires Rebuilt(m, list) && DistinctNames(list) && i < |list|
    ensures Names.Lower(list[i].name) in m && m[Names.Lower(list[i].name)].config == list[i]
  {
    assert LastAt(list, i);
    assert Filed(m, list[i]);
  }

  lemma DistinctIsOrder(m: Runners, list: seq<SessionConfig>)
    requires Rebuilt(m, list) && DistinctNames(list)
    ensures IsOrder(LowerNames(list), m.Keys)
  {
    var order := LowerNames(list);
    forall i | 0 <= i < |list| ensures order[i] in m {
      FiledAt(m, list, i);
    }
    forall k | k in m ensures k in order {
      var i :| 0 <= i < |list| && k == Names.Lower(list[i].name);
      assert order[i] == k;
    }
  }

  lemma DistinctIsListing(m: Runners, list: seq<SessionConfig>)
    requires Rebuilt(m, list) && DistinctNames(list) && IsOrder(LowerNames(list), m.Keys)
    ensures Listing(LowerNames(list), m) == list
  {
    forall i | 0 <= i < |list| ensures Listing(LowerNames(list), m)[i] == list[i] {
      FiledAt(m, list, i);
    }
  }

  // The map built at startup agrees with the file it was built from exactly when no name is stored twice.
  lemma AgreesIffDistinct(cipher: Cipher, file: Option<seq<SessionConfig>>, m: Runners)
    requires Rebuilt(m, Load(cipher, file)) && WellFormed(m)
    ensures Agrees(cipher, file, m) <==> DistinctNames(Load(cipher, file))
  {
    var list := Load(cipher, file);
    if DistinctNames(list) {
      DistinctIsOrder(m, list);
      DistinctIsListing(m, list);
    }
    if Agrees(cipher, file, m) {
      var order :| IsOrder(order, m.Keys) && list == Listing(order, m);
      ListingDistinct(order, m);
    }
  }

  lemma ListingDistinct(order: seq<string>, m: Runners)
    requires WellFormed(m) && IsOrder(order, m.Keys)
    ensures DistinctNames(Listing(order, m))
  {
    var list := Listing(order, m);
    forall i | 0 <= i < |list| ensures Names.Lower(list[i].name) == order[i] {
      assert order[i] in m;
    }
  }

  // ---- restarting the application -------------------------------------------------------------

  // Same keys, same configurations, same shapes.
  predicate SameSessions(m: Runners, runners: Runners) {
    && m.Keys == runners.Keys
    && forall k :: k in runners ==> m[k].config == runners[k].config && HasShape(m[k], ShapeOf(runners[k]))
  }

  // One entry: startable, and started again in the shape it had.
  lemma StartupShape(e: RunnerEntry, first: nat)
    requires HasShape(e, ShapeOf(e)) && (e.config.launchOnStartup <==> !IsStopped(e))
    ensures Startable(e.config)
    ensures StartupEntry(e.config, first).config == e.config && HasShape(StartupEntry(e.config, first), ShapeOf(e))
  {
  }

  lemma ListingStartable(order: seq<string>, runners: Runners)
    requires WellFormed(runners) && FlagsAgree(runners) && IsOrder(order, runners.Keys)
    ensures AllStartable(Listing(order, runners))
  {
    forall i | 0 <= i < |order| ensures Startable(Listing(order, runners)[i]) {
      assert order[i] in runners;
      StartupShape(runners[order[i]], 0);
    }
  }

  lemma EntryRebuilt(order: seq<string>, runners: Runners, m: Runners, k: string)
    requires WellFormed(runners) && FlagsAgree(runners) && IsOrder(order, runners.Keys)
    requires Rebuilt(m, Listing(order, runners)) && k in runners
    ensures k in m && m[k].config == runners[k].config && HasShape(m[k], ShapeOf(runners[k]))
  {
    var list := Listing(order, runners);
    ListingDistinct(order, runners);
    assert k in order;
    var i :| 0 <= i < |order| && order[i] == k;
    assert list[i] == runners[k].config && LastAt(list, i);
    assert Filed(m, list[i]);
    var first :| m[k] == StartupEntry(runners[k].config, first);
    StartupShape(runners[k], first);
  }

  lemma RebuiltKeys(order: seq<string>, runners: Runners, m: Runners, k: string)
    requires WellFormed(runners) && IsOrder(order, runners.Keys) && Rebuilt(m, Listing(order, runners)) && k in m
    ensures k in runners
  {
    var i :| 0 <= i < |order| && k == Names.Lower(Listing(order, runners)[i].name);
    assert order[i] in runners;
  }

  // Whatever the operations have made of the map: if its flags agree with what runs and the file with it,
  // the startup loop accepts the file and builds from it the same keys, configurations and shapes ...
  lemma ReloadRebuilds(cipher: Cipher, file: Option<seq<SessionConfig>>, runners: Runners, m: Runners)
    requires WellFormed(runners) && FlagsAgree(runners) && Agrees(cipher, file, runners)
    requires Rebuilt(m, Load(cipher, file))
    ensures AllStartable(Load(cipher, file)) && DistinctNames(Load(cipher, file))
    ensures SameSessions(m, runners)
  {
    var order :| IsOrder(order, runners.Keys) && Load(cipher, file) == Listing(order, runners);
    ListingStartable(order, runners);
    ListingDistinct(order, runners);
    forall k | k in runners
      ensures k in m && m[k].config == runners[k].config && HasShape(m[k], ShapeOf(runners[k]))
    {
      EntryRebuilt(order, runners, m, k);
    }
    forall k | k in m ensures k in runners {
      RebuiltKeys(order, runners, m, k);
    }
  }

  // ... and only then.
  lemma RebuiltOnlyThen(cipher: Cipher, file: Option<seq<SessionConfig>>, runners: Runners, m: Runners)
    requires WellFormed(runners) && Rebuilt(m, Load(cipher, file))
    requires AllStartable(Load(cipher, file)) && DistinctNames(Load(cipher, file)) && SameSessions(m, runners)
    ensures FlagsAgree(runners) && Agrees(cipher, file, runners)
  {
    RebuiltShapes(m, Load(cipher, file));
    AgreesIffDistinct(cipher, file, m);
    SameConfigsAgree(cipher, file, m, runners);
    forall k | k in runners ensures runners[k].config.launchOnStartup <==> !IsStopped(runners[k]) {
      assert k in m && HasShape(runners[k], ShapeOf(runners[k])) && HasShape(m[k], ShapeOf(runners[k]));
    }
  }

  // Exactly when a restart of the application brings back what there was, without a name stored twice: when
  // the flags agree with what ran, and the stored file with the configurations.
  lemma ReloadIff(cipher: Cipher, file: Option<seq<SessionConfig>>, runners: Runners, m: Runners)
    requires WellFormed(runners) && Rebuilt(m, Load(cipher, file))
    ensures FlagsAgree(runners) && Agrees(cipher, file, runners) <==>
              AllStartable(Load(cipher, file)) && DistinctNames(Load(cipher, file)) && SameSessions(m, runners)
  {
    if FlagsAgree(runners) && Agrees(cipher, file, runners) {
      ReloadRebuilds(cipher, file, runners, m);
    }
    if AllStartable(Load(cipher, file)) && DistinctNames(Load(cipher, file)) && SameSessions(m, runners) {
      RebuiltOnlyThen(cipher, file, runners, m);
    }
  }
}
