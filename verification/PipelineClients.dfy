/** What one subscriber receives: every broadcast since it subscribed, or an exact count of what it missed. */
module PipelineClients {
  import opened Pipeline
  import opened PipelineOutput
  import opened Sequences

  // The recv results `items` lead a receiver from log position `from` to log position `to`.
  predicate Replay(log: seq<Entry>, from: nat, items: seq<Item>, to: nat) {
    if items == [] then from == to else
      var n := |items| - 1;
      match items[n]
      case Got(b) => 0 < to <= |log| && log[to - 1].chunk == b && Replay(log, from, items[..n], to - 1)
      case Lagged(k, _) => 0 < k <= to && Replay(log, from, items[..n], to - k)
  }

  // The chunks received, and the number of broadcasts reported as missed.
  function Received(items: seq<Item>): seq<Chunk> {
    if items == [] then [] else
      var n := |items| - 1;
      Received(items[..n]) + if items[n].Got? then [items[n].chunk] else []
  }

  function Missed(items: seq<Item>): nat {
    if items == [] then 0 else
      var n := |items| - 1;
      Missed(items[..n]) + if items[n].Lagged? then items[n].missed else 0
  }

  // What the forward task tries to write to the channel.
  function Writes(items: seq<Item>): seq<Chunk> {
    if items == [] then [] else
      var n := |items| - 1;
      Writes(items[..n]) +
      match items[n]
      case Got(b) => [b]
      case Lagged(_, told) => if told then [LAG_LINE] else []
  }

  function TotalLength(chunks: seq<Chunk>): nat {
    if chunks == [] then 0 else TotalLength(chunks[..|chunks| - 1]) + |chunks[|chunks| - 1]|
  }

  function ChunksOf(log: seq<Entry>): seq<Chunk> {
    seq(|log|, i requires 0 <= i < |log| => log[i].chunk)
  }

  predicate SubInv(log: seq<Entry>, u: Subscriber) {
    && u.cursor <= |log|
    && Replay(log, u.start, u.items, u.cursor)
    && u.bytesOut == TotalLength(Received(u.items))
    && u.written <= Writes(u.items)
    && |Writes(u.items)| <= |u.written| + (if u.live then 0 else 1)
  }

  predicate ClientsInv(s: State) {
    forall id :: id in s.subs ==> SubInv(s.out.log, s.subs[id])
  }

  lemma ItemsSnoc(items: seq<Item>, x: Item)
    ensures Received(items + [x]) == Received(items) + if x.Got? then [x.chunk] else []
    ensures Missed(items + [x]) == Missed(items) + if x.Lagged? then x.missed else 0
    ensures Writes(items + [x]) ==
              Writes(items) + if x.Got? then [x.chunk] else if x.told then [LAG_LINE] else []
  {
    assert (items + [x])[..|items|] == items;
  }

  lemma TotalSnoc(chunks: seq<Chunk>, b: Chunk)
    ensures TotalLength(chunks + [b]) == TotalLength(chunks) + |b|
  {
    assert (chunks + [b])[..|chunks|] == chunks;
  }

  lemma {:induction false} ReplayGrows(log: seq<Entry>, more: seq<Entry>, from: nat, items: seq<Item>, to: nat)
    requires Replay(log, from, items, to)
    ensures Replay(log + more, from, items, to)
  {
    if items != [] {
      var n := |items| - 1;
      ReplayGrows(log, more, from, items[..n], to - if items[n].Got? then 1 else items[n].missed);
    }
  }

  // Position bookkeeping: deliveries plus reported losses is exactly the distance travelled.
  lemma {:induction false} ReplayCounts(log: seq<Entry>, from: nat, items: seq<Item>, to: nat)
    requires Replay(log, from, items, to)
    ensures from + |Received(items)| + Missed(items) == to
  {
    if items != [] {
      var n := |items| - 1;
      ReplayCounts(log, from, items[..n], to - if items[n].Got? then 1 else items[n].missed);
    }
  }

  lemma {:induction false} ReplayWithoutLag(log: seq<Entry>, from: nat, items: seq<Item>, to: nat)
    requires Replay(log, from, items, to) && Missed(items) == 0 && to <= |log|
    ensures from <= to && Received(items) == ChunksOf(log[from..to])
  {
    ReplayCounts(log, from, items, to);
    if items != [] {
      var n := |items| - 1;
      ReplayWithoutLag(log, from, items[..n], to - 1);
      ReplayCounts(log, from, items[..n], to - 1);
      assert log[from..to] == log[from..to - 1] + [log[to - 1]];
    }
  }

  lemma SubRecvStep(log: seq<Entry>, u: Subscriber, writable: bool)
    requires SubInv(log, u) && u.live && u.cursor < |log|
    ensures var b := log[u.cursor].chunk;
            SubInv(log, u.(cursor := u.cursor + 1, items := u.items + [Got(b)], bytesOut := u.bytesOut + |b|,
                           written := if writable then u.written + [b] else u.written, live := writable))
  {
    var b := log[u.cursor].chunk;
    ItemsSnoc(u.items, Got(b));
    TotalSnoc(Received(u.items), b);
    assert (u.items + [Got(b)])[..|u.items|] == u.items;
  }

  lemma SubLagStep(log: seq<Entry>, u: Subscriber, to: nat, writable: bool)
    requires SubInv(log, u) && u.live && u.cursor < to <= |log|
    ensures SubInv(log, u.(cursor := to, items := u.items + [Lagged(to - u.cursor, writable)],
                           written := if writable then u.written + [LAG_LINE] else u.written))
  {
    var x := Lagged(to - u.cursor, writable);
    ItemsSnoc(u.items, x);
    assert Received(u.items + [x]) == Received(u.items);
    assert (u.items + [x])[..|u.items|] == u.items;
  }

  lemma LogOnlyGrows(c: Config, s: State, a: Action)
    requires Enabled(c, s, a)
    ensures s.out.log <= Apply(c, s, a).out.log
  {
    if !OutputAction(a) {
      Frames(c, s, a);
    }
  }

  lemma GrownLogKeepsClients(s: State, t: State)
    requires ClientsInv(s) && s.out.log <= t.out.log && t.subs == s.subs
    ensures ClientsInv(t)
  {
    var more := t.out.log[|s.out.log|..];
    assert t.out.log == s.out.log + more;
    forall id | id in t.subs ensures SubInv(t.out.log, t.subs[id]) {
      ReplayGrows(s.out.log, more, s.subs[id].start, s.subs[id].items, s.subs[id].cursor);
    }
  }

  lemma OneClientMoves(s: State, t: State, id: nat, u: Subscriber)
    requires ClientsInv(s) && t.out == s.out && t.subs == s.subs[id := u] && SubInv(s.out.log, u)
    ensures ClientsInv(t)
  {
  }

  lemma LagMoves(c: Config, s: State, a: Action)
    requires Enabled(c, s, a) && a.SubLag?
    ensures var u, to := s.subs[a.id], RingFloor(c, s.out.log);
            Apply(c, s, a).subs[a.id] ==
              u.(cursor := to, items := u.items + [Lagged(to - u.cursor, a.writable)],
                 written := if a.writable then u.written + [LAG_LINE] else u.written)
  {
  }

  lemma LagKeeps(c: Config, s: State, a: Action)
    requires ClientsInv(s) && Enabled(c, s, a) && a.SubLag?
    ensures SubInv(s.out.log, Apply(c, s, a).subs[a.id])
  {
    LagMoves(c, s, a);
    SubLagStep(s.out.log, s.subs[a.id], RingFloor(c, s.out.log), a.writable);
  }

  lemma RecvMoves(c: Config, s: State, a: Action)
    requires Enabled(c, s, a) && a.SubRecv?
    ensures var u, b := s.subs[a.id], s.out.log[s.subs[a.id].cursor].chunk;
            Apply(c, s, a).subs[a.id] ==
              u.(cursor := u.cursor + 1, items := u.items + [Got(b)], bytesOut := u.bytesOut + |b|,
                 written := if a.writable then u.written + [b] else u.written, live := a.writable)
  {
  }

  lemma RecvKeeps(c: Config, s: State, a: Action)
    requires ClientsInv(s) && Enabled(c, s, a) && a.SubRecv?
    ensures SubInv(s.out.log, Apply(c, s, a).subs[a.id])
  {
    RecvMoves(c, s, a);
    SubRecvStep(s.out.log, s.subs[a.id], a.writable);
  }

  lemma MoverKeeps(c: Config, s: State, a: Action)
    requires ClientsInv(s) && Enabled(c, s, a) && ClientAction(a)
    ensures a.id in Apply(c, s, a).subs && SubInv(s.out.log, Apply(c, s, a).subs[a.id])
  {
    if a.SubLag? {
      LagKeeps(c, s, a);
    } else if a.SubRecv? {
      RecvKeeps(c, s, a);
    }
  }

  lemma ClientStep(c: Config, s: State, a: Action)
    requires ClientsInv(s) && Enabled(c, s, a) && ClientAction(a)
    ensures ClientsInv(Apply(c, s, a))
  {
    MoverKeeps(c, s, a);
    OneClientMoves(s, Apply(c, s, a), a.id, Apply(c, s, a).subs[a.id]);
  }

  lemma ClientsStep(c: Config, s: State, a: Action)
    requires ClientsInv(s) && Enabled(c, s, a)
    ensures ClientsInv(Apply(c, s, a))
  {
    if ClientAction(a) {
      ClientStep(c, s, a);
    } else {
      Frames(c, s, a);
      LogOnlyGrows(c, s, a);
      GrownLogKeepsClients(s, Apply(c, s, a));
    }
  }

  lemma {:induction false} ClientsInvariant(c: Config, s: State, acts: seq<Action>)
    requires ClientsInv(s) && Legal(c, s, acts)
    ensures ClientsInv(Run(c, s, acts))
    decreases |acts|
  {
    if acts != [] {
      ClientsStep(c, s, acts[0]);
      ClientsInvariant(c, Apply(c, s, acts[0]), acts[1..]);
    }
  }

  // Every subscriber of every run: deliveries + reported losses + pending = broadcasts since it
  // subscribed; `bytes_out` is the sum of the delivered lengths; the channel got every write in order,
  // short of at most the one whose failure ended the task.
  lemma SubscriberAccount(c: Config, acts: seq<Action>, id: nat)
    requires Legal(c, Init(), acts) && id in Run(c, Init(), acts).subs
    ensures var s := Run(c, Init(), acts);
            var u := s.subs[id];
            && Replay(s.out.log, u.start, u.items, u.cursor)
            && |Received(u.items)| + Missed(u.items) + (|s.out.log| - u.cursor) == |s.out.log| - u.start
            && u.bytesOut == TotalLength(Received(u.items))
            && u.written <= Writes(u.items) && |Writes(u.items)| <= |u.written| + (if u.live then 0 else 1)
  {
    ClientsInvariant(c, Init(), acts);
    var s := Run(c, Init(), acts);
    ReplayCounts(s.out.log, s.subs[id].start, s.subs[id].items, s.subs[id].cursor);
  }

  lemma ReceivedAt(log: seq<Entry>, u: Subscriber, at: nat)
    requires SubInv(log, u) && Missed(u.items) == 0 && u.start <= at < u.cursor
    ensures at - u.start < |Received(u.items)| && Received(u.items)[at - u.start] == log[at].chunk
  {
    ReplayWithoutLag(log, u.start, u.items, u.cursor);
  }

  // Two subscribers that never lagged received the same chunk for every broadcast both have passed.
  lemma SameWindowSameBytes(c: Config, acts: seq<Action>, a: nat, b: nat, at: nat)
    requires Legal(c, Init(), acts)
    requires var s := Run(c, Init(), acts);
             && a in s.subs && b in s.subs && Missed(s.subs[a].items) == 0 && Missed(s.subs[b].items) == 0
             && s.subs[a].start <= at < s.subs[a].cursor && s.subs[b].start <= at < s.subs[b].cursor
    ensures var s := Run(c, Init(), acts);
            var u, v := s.subs[a], s.subs[b];
            && at < |s.out.log| && at - u.start < |Received(u.items)| && at - v.start < |Received(v.items)|
            && Received(u.items)[at - u.start] == Received(v.items)[at - v.start] == s.out.log[at].chunk
  {
    var s := Run(c, Init(), acts);
    assert SubInv(s.out.log, s.subs[a]) && SubInv(s.out.log, s.subs[b]) by {
      ClientsInvariant(c, Init(), acts);
    }
    ReceivedAt(s.out.log, s.subs[a], at);
    ReceivedAt(s.out.log, s.subs[b], at);
  }

  lemma {:induction false} RelayedConcat(a: seq<Entry>, b: seq<Entry>)
    ensures Relayed(a + b) == Relayed(a) + Relayed(b)
    decreases |b|
  {
    if b == [] {
      assert a + b == a;
    } else {
      var n := |b| - 1;
      assert (a + b)[..|a| + n] == a + b[..n];
      RelayedConcat(a, b[..n]);
    }
  }

  lemma RelayedCut(log: seq<Entry>, n: nat)
    requires n <= |log|
    ensures Relayed(log) == Relayed(log[..n]) + Relayed(log[n..])
  {
    assert log == log[..n] + log[n..];
    RelayedConcat(log[..n], log[n..]);
  }

  // The log cut at two positions.
  lemma RelayedWindow(log: seq<Entry>, from: nat, to: nat)
    requires from <= to <= |log|
    ensures Relayed(log[..from]) + Relayed(log[from..to]) <= Relayed(log)
  {
    var front := log[..to];
    assert front[..from] == log[..from] && front[from..] == log[from..to];
    RelayedCut(front, from);
    RelayedCut(log, to);
  }

  // From driver to client: a subscriber that never lagged has received exactly the log from where it
  // joined up to its cursor; the upstream chunks among what it received follow those broadcast before it
  // joined, and both together are a prefix of what the runs passed on.
  lemma EndToEnd(c: Config, acts: seq<Action>, id: nat)
    requires Legal(c, Init(), acts)
    requires var s := Run(c, Init(), acts); id in s.subs && Missed(s.subs[id].items) == 0
    ensures var s := Run(c, Init(), acts);
            var u := s.subs[id];
            && u.start <= u.cursor <= |s.out.log|
            && Received(u.items) == ChunksOf(s.out.log[u.start..u.cursor])
            && Relayed(s.out.log[..u.start]) + Relayed(s.out.log[u.start..u.cursor])
                 <= PushedBy(s.out.past) + s.out.pushed
            && s.out.pushed <= Outputs(s.out.emitted)
            && (forall k :: 0 <= k < |s.out.past| ==> s.out.past[k].pushed <= Outputs(s.out.past[k].emitted))
  {
    ClientsInvariant(c, Init(), acts);
    OutputFidelity(c, acts);
    var s := Run(c, Init(), acts);
    var u := s.subs[id];
    ReplayWithoutLag(s.out.log, u.start, u.items, u.cursor);
    RelayedWindow(s.out.log, u.start, u.cursor);
    Associative(Relayed(s.out.log), InForwarder(s.out.hand), s.out.forward);
  }

  // ---- the beginning and the end of a subscription --------------------------------------------

  // The forward task leaves its loop: it is kicked, falls silent or finds the channel closed, or a write of
  // a chunk fails. (A write of the lag line may fail; the task goes on.)
  predicate EndsTask(a: Action, id: nat) {
    a == SubEnd(id) || a == SubRecv(id, false)
  }

  lemma OthersUntouched(c: Config, s: State, a: Action, id: nat)
    requires Enabled(c, s, a) && !(ClientAction(a) && a.id == id)
    ensures id in Apply(c, s, a).subs <==> id in s.subs
    ensures id in s.subs ==> Apply(c, s, a).subs[id] == s.subs[id]
  {
    if !ClientAction(a) {
      Frames(c, s, a);
    }
  }

  // In every run a subscription is live exactly when it has begun and its task has not ended.
  lemma {:induction false} LiveIffNotEnded(c: Config, s: State, acts: seq<Action>, id: nat)
    requires Legal(c, s, acts)
    ensures LiveSub(Run(c, s, acts), id) <==>
              && (LiveSub(s, id) || (id !in s.subs && Subscribe(id) in acts))
              && forall a :: a in acts ==> !EndsTask(a, id)
    decreases |acts|
  {
    if acts != [] {
      var a, t := acts[0], Apply(c, s, acts[0]);
      LiveIffNotEnded(c, t, acts[1..], id);
      if !(ClientAction(a) && a.id == id) {
        OthersUntouched(c, s, a, id);
      }
      assert forall b :: b in acts <==> b == a || b in acts[1..];
      assert EndsTask(a, id) ==> id in t.subs && !t.subs[id].live;
      if id !in s.subs && !a.Subscribe? {
        assert !EndsTask(a, id);
      }
    }
  }

  lemma {:induction false} EndedStays(c: Config, s: State, acts: seq<Action>, id: nat)
    requires id in s.subs && !s.subs[id].live && Legal(c, s, acts)
    ensures id in Run(c, s, acts).subs && Run(c, s, acts).subs[id] == s.subs[id]
    decreases |acts|
  {
    if acts != [] {
      OthersUntouched(c, s, acts[0], id);
      EndedStays(c, Apply(c, s, acts[0]), acts[1..], id);
    }
  }

  // A task may end whenever it lives, and always can. What it does as it ends is the last thing: in every
  // continuation nothing more is received, counted or written. A chunk whose write fails was received and
  // counted. No other subscriber, and nothing else in the session, is touched.
  lemma NothingAfterTheEnd(c: Config, s: State, a: Action, acts: seq<Action>, id: nat)
    requires LiveSub(s, id) && (a == SubEnd(id) || (a == SubRecv(id, false) && Enabled(c, s, a)))
    ensures Enabled(c, s, a)
    ensures Legal(c, Apply(c, s, a), acts) ==> id in Run(c, Apply(c, s, a), acts).subs
    ensures Legal(c, Apply(c, s, a), acts) ==>
              var u, v := s.subs[id], Run(c, Apply(c, s, a), acts).subs[id];
              && !v.live && v.start == u.start && v.written == u.written
              && if a.SubEnd? then v.items == u.items && v.cursor == u.cursor && v.bytesOut == u.bytesOut
                 else
                   && u.cursor < |s.out.log|
                   && var b := s.out.log[u.cursor].chunk;
                      v.items == u.items + [Got(b)] && v.cursor == u.cursor + 1 && v.bytesOut == u.bytesOut + |b|
    ensures var t := Apply(c, s, a);
            && t.loop == s.loop && t.inp == s.inp && t.out == s.out && t.subs.Keys == s.subs.Keys
            && forall other :: other in s.subs && other != id ==> t.subs[other] == s.subs[other]
  {
    if Legal(c, Apply(c, s, a), acts) {
      EndedStays(c, Apply(c, s, a), acts, id);
    }
  }

  lemma {:induction false} StartStays(c: Config, s: State, acts: seq<Action>, id: nat)
    requires id in s.subs && Legal(c, s, acts)
    ensures id in Run(c, s, acts).subs && Run(c, s, acts).subs[id].start == s.subs[id].start
    decreases |acts|
  {
    if acts != [] {
      if !(ClientAction(acts[0]) && acts[0].id == id) {
        OthersUntouched(c, s, acts[0], id);
      }
      StartStays(c, Apply(c, s, acts[0]), acts[1..], id);
    }
  }

  // A client may join at any time. It starts with nothing, behind everything broadcast before, for good.
  lemma JoinsBehindTheLog(c: Config, s: State, acts: seq<Action>, id: nat)
    requires id !in s.subs
    ensures Enabled(c, s, Subscribe(id))
    ensures var u := Apply(c, s, Subscribe(id)).subs[id];
            u.cursor == |s.out.log| && u.items == [] && u.written == [] && u.bytesOut == 0
    ensures Legal(c, Apply(c, s, Subscribe(id)), acts) ==>
              var t := Run(c, Apply(c, s, Subscribe(id)), acts);
              id in t.subs && t.subs[id].start == |s.out.log|
  {
    if Legal(c, Apply(c, s, Subscribe(id)), acts) {
      StartStays(c, Apply(c, s, Subscribe(id)), acts, id);
    }
  }

  // The subscriber receives and writes the log from its cursor on.
  predicate Drains(s: State, t: State, id: nat) {
    && id in s.subs && id in t.subs && t.out == s.out && s.subs[id].cursor <= |s.out.log|
    && var u, v := s.subs[id], t.subs[id];
       var rest := ChunksOf(s.out.log[u.cursor..]);
       && v.live && v.cursor == |s.out.log| && Missed(v.items) == Missed(u.items)
       && Received(v.items) == Received(u.items) + rest && v.written == u.written + rest
  }

  lemma DrainOne(s: State, m: State, t: State, id: nat)
    requires id in s.subs && id in m.subs && m.out == s.out && s.subs[id].cursor < |s.out.log|
    requires var u, v, b := s.subs[id], m.subs[id], s.out.log[s.subs[id].cursor].chunk;
             v.cursor == u.cursor + 1 && v.items == u.items + [Got(b)] && v.written == u.written + [b]
    requires Drains(m, t, id)
    ensures Drains(s, t, id)
  {
    var u, v, b := s.subs[id], m.subs[id], s.out.log[s.subs[id].cursor].chunk;
    ItemsSnoc(u.items, Got(b));
    assert ChunksOf(s.out.log[u.cursor..]) == [b] + ChunksOf(s.out.log[v.cursor..]);
    Associative(Received(u.items), [b], ChunksOf(s.out.log[v.cursor..]));
    Associative(u.written, [b], ChunksOf(s.out.log[v.cursor..]));
  }

  lemma {:induction false} DrainAll(c: Config, s: State, id: nat) returns (acts: seq<Action>)
    requires LiveSub(s, id) && RingFloor(c, s.out.log) <= s.subs[id].cursor <= |s.out.log|
    ensures Legal(c, s, acts) && Drains(s, Run(c, s, acts), id)
    decreases |s.out.log| - s.subs[id].cursor
  {
    acts := [];
    var u := s.subs[id];
    if u.cursor == |s.out.log| {
      assert ChunksOf(s.out.log[u.cursor..]) == [];
    } else {
      var m := Apply(c, s, SubRecv(id, true));
      var more := DrainAll(c, m, id);
      DrainOne(s, m, Run(c, m, more), id);
      acts := [SubRecv(id, true)] + more;
      assert acts[1..] == more;
    }
  }

  // What a subscriber `gone` broadcasts further behind than the ring reaches comes to.
  predicate CaughtUp(s: State, t: State, id: nat, gone: nat) {
    && id in s.subs && id in t.subs && t.out == s.out && s.subs[id].cursor + gone <= |s.out.log|
    && var u, v := s.subs[id], t.subs[id];
       var rest := ChunksOf(s.out.log[u.cursor + gone..]);
       && v.live && v.cursor == |s.out.log| && Missed(v.items) == Missed(u.items) + gone
       && Received(v.items) == Received(u.items) + rest
       && v.written == u.written + (if gone > 0 then [LAG_LINE] else []) + rest
  }

  lemma LagAlone(c: Config, s: State, id: nat)
    requires LiveSub(s, id) && s.subs[id].cursor < RingFloor(c, s.out.log)
    ensures var m := Apply(c, s, SubLag(id, true));
            && m.out == s.out && LiveSub(m, id)
            && var u, v := s.subs[id], m.subs[id];
               && v.cursor == RingFloor(c, s.out.log) && Received(v.items) == Received(u.items)
               && Missed(v.items) == Missed(u.items) + (v.cursor - u.cursor) && v.written == u.written + [LAG_LINE]
  {
    ItemsSnoc(s.subs[id].items, Lagged(RingFloor(c, s.out.log) - s.subs[id].cursor, true));
  }

  lemma LagThenDrain(c: Config, s: State, id: nat) returns (acts: seq<Action>)
    requires LiveSub(s, id) && s.subs[id].cursor < RingFloor(c, s.out.log)
    ensures Legal(c, s, acts)
    ensures CaughtUp(s, Run(c, s, acts), id, RingFloor(c, s.out.log) - s.subs[id].cursor)
  {
    LagAlone(c, s, id);
    var m := Apply(c, s, SubLag(id, true));
    var more := DrainAll(c, m, id);
    acts := [SubLag(id, true)] + more;
    assert acts[1..] == more;
    LagDrained(s, m, Run(c, m, more), id);
  }

  lemma LagDrained(s: State, m: State, t: State, id: nat)
    requires id in s.subs && id in m.subs && m.out == s.out && Drains(m, t, id)
    requires var u, v := s.subs[id], m.subs[id];
             && u.cursor < v.cursor && Received(v.items) == Received(u.items)
             && Missed(v.items) == Missed(u.items) + (v.cursor - u.cursor) && v.written == u.written + [LAG_LINE]
    ensures CaughtUp(s, t, id, m.subs[id].cursor - s.subs[id].cursor)
  {
  }

  // How many of a subscriber's broadcasts the ring has overwritten.
  function Gone(c: Config, s: State, id: nat): nat
    requires id in s.subs
  {
    if Pending(s, id) > c.ringCapacity then Pending(s, id) - c.ringCapacity else 0
  }

  lemma CatchUpFrom(c: Config, s: State, id: nat) returns (acts: seq<Action>)
    requires LiveSub(s, id) && s.subs[id].cursor <= |s.out.log|
    ensures Legal(c, s, acts) && CaughtUp(s, Run(c, s, acts), id, Gone(c, s, id))
  {
    if Gone(c, s, id) > 0 {
      acts := LagThenDrain(c, s, id);
    } else {
      acts := DrainAll(c, s, id);
      assert Run(c, s, acts).subs[id].written ==
        s.subs[id].written + [] + ChunksOf(s.out.log[s.subs[id].cursor..]);
    }
  }

  // From every reachable state a live subscriber, on its own, can receive and write everything the ring
  // still holds for it, in order, preceded by the lag line if some of its broadcasts have been overwritten;
  // it then is told of exactly those.
  lemma CatchesUp(c: Config, before: seq<Action>, id: nat) returns (acts: seq<Action>)
    requires Legal(c, Init(), before) && LiveSub(Run(c, Init(), before), id)
    ensures var s := Run(c, Init(), before);
            Legal(c, s, acts) && CaughtUp(s, Run(c, s, acts), id, Gone(c, s, id))
  {
    ClientsInvariant(c, Init(), before);
    acts := CatchUpFrom(c, Run(c, Init(), before), id);
  }

  // ---- falling behind -------------------------------------------------------------------------

  // How many broadcasts subscriber `id` has still to receive.
  function Pending(s: State, id: nat): nat
    requires id in s.subs
  {
    if s.subs[id].cursor <= |s.out.log| then |s.out.log| - s.subs[id].cursor else 0
  }

  // Along the run the subscriber is never further behind than the ring reaches.
  predicate KeepsUp(c: Config, s: State, acts: seq<Action>, id: nat)
    requires Legal(c, s, acts)
    decreases |acts|
  {
    && (id in s.subs ==> Pending(s, id) <= c.ringCapacity)
    && (acts == [] || KeepsUp(c, Apply(c, s, acts[0]), acts[1..], id))
  }

  // Losses reported so far; a subscriber that has not joined has none.
  function MissedBy(s: State, id: nat): nat {
    if id in s.subs then Missed(s.subs[id].items) else 0
  }

  lemma MissedStep(c: Config, s: State, a: Action, id: nat)
    requires Enabled(c, s, a)
    ensures MissedBy(Apply(c, s, a), id) ==
              MissedBy(s, id) + if a.SubLag? && a.id == id then RingFloor(c, s.out.log) - s.subs[id].cursor else 0
  {
    if ClientAction(a) && a.id == id && id in s.subs {
      var items := Apply(c, s, a).subs[id].items;
      if |items| > |s.subs[id].items| {
        ItemsSnoc(s.subs[id].items, items[|items| - 1]);
      }
    } else if !ClientAction(a) {
      Frames(c, s, a);
    }
  }

  // A subscriber that keeps up along a run is told of no loss, however slow it is in between.
  lemma {:induction false} KeepingUpMissesNothing(c: Config, s: State, acts: seq<Action>, id: nat)
    requires ClientsInv(s) && Legal(c, s, acts) && KeepsUp(c, s, acts, id)
    ensures MissedBy(Run(c, s, acts), id) == MissedBy(s, id)
    decreases |acts|
  {
    if acts != [] {
      MissedStep(c, s, acts[0], id);
      ClientsStep(c, s, acts[0]);
      KeepingUpMissesNothing(c, Apply(c, s, acts[0]), acts[1..], id);
    }
  }

  // Subscriber `id` has not received anything since it was `was`, and is further behind than the ring reaches.
  predicate Overrun(c: Config, was: Subscriber, s: State, id: nat) {
    && id in s.subs && s.subs[id].items == was.items && s.subs[id].cursor == was.cursor
    && |s.out.log| - was.cursor > c.ringCapacity
  }

  lemma OverrunStep(c: Config, was: Subscriber, s: State, a: Action, id: nat)
    requires Overrun(c, was, s, id) && Enabled(c, s, a) && !(a.SubLag? && a.id == id)
    ensures Overrun(c, was, Apply(c, s, a), id)
  {
    LogOnlyGrows(c, s, a);
    if !ClientAction(a) {
      Frames(c, s, a);
    }
  }

  lemma {:induction false} MissedGrows(c: Config, s: State, acts: seq<Action>, id: nat)
    requires Legal(c, s, acts)
    ensures MissedBy(s, id) <= MissedBy(Run(c, s, acts), id)
    decreases |acts|
  {
    if acts != [] {
      MissedStep(c, s, acts[0], id);
      MissedGrows(c, Apply(c, s, acts[0]), acts[1..], id);
    }
  }

  lemma {:induction false} OverrunLoses(c: Config, was: Subscriber, s: State, acts: seq<Action>, id: nat)
    requires Overrun(c, was, s, id) && Legal(c, s, acts)
    ensures var t := Run(c, s, acts);
            || (id in t.subs && t.subs[id].items == was.items)
            || MissedBy(t, id) >= Missed(was.items) + (|s.out.log| - c.ringCapacity - was.cursor)
    decreases |acts|
  {
    if acts != [] {
      var t := Apply(c, s, acts[0]);
      LogOnlyGrows(c, s, acts[0]);
      if acts[0].SubLag? && acts[0].id == id {
        MissedStep(c, s, acts[0], id);
        MissedGrows(c, t, acts[1..], id);
      } else {
        OverrunStep(c, was, s, acts[0], id);
        OverrunLoses(c, was, t, acts[1..], id);
      }
    }
  }

  // One that falls further behind has lost for good: whatever follows, it either receives nothing more, or
  // is told of at least as many losses as have been overwritten by now.
  lemma FallingBehindLoses(c: Config, s: State, acts: seq<Action>, id: nat)
    requires id in s.subs && Pending(s, id) > c.ringCapacity && Legal(c, s, acts)
    ensures var t := Run(c, s, acts);
            || (id in t.subs && t.subs[id].items == s.subs[id].items)
            || MissedBy(t, id) >= MissedBy(s, id) + (Pending(s, id) - c.ringCapacity)
  {
    OverrunLoses(c, s.subs[id], s, acts, id);
  }

  // Every reported loss has been overwritten: its entries lie before what the ring holds now.
  predicate LossesOverwritten(c: Config, log: seq<Entry>, items: seq<Item>, to: nat) {
    if items == [] then true else
      var n := |items| - 1;
      match items[n]
      case Got(_) => to > 0 && LossesOverwritten(c, log, items[..n], to - 1)
      case Lagged(k, _) => k <= to && to + c.ringCapacity <= |log| && LossesOverwritten(c, log, items[..n], to - k)
  }

  predicate OverwrittenInv(c: Config, s: State) {
    forall id :: id in s.subs ==> LossesOverwritten(c, s.out.log, s.subs[id].items, s.subs[id].cursor)
  }

  lemma {:induction false} OverwrittenStays(c: Config, log: seq<Entry>, more: seq<Entry>, items: seq<Item>, to: nat)
    requires LossesOverwritten(c, log, items, to) && log <= more
    ensures LossesOverwritten(c, more, items, to)
  {
    if items != [] {
      var n := |items| - 1;
      OverwrittenStays(c, log, more, items[..n], to - if items[n].Got? then 1 else items[n].missed);
    }
  }

  lemma OverwrittenSnoc(c: Config, log: seq<Entry>, items: seq<Item>, x: Item, to: nat)
    requires LossesOverwritten(c, log, items, to) && (x.Lagged? ==> to + x.missed + c.ringCapacity <= |log|)
    ensures LossesOverwritten(c, log, items + [x], to + if x.Got? then 1 else x.missed)
  {
    assert (items + [x])[..|items|] == items;
  }

  // The subscriber that receives, and every other one.
  lemma OverwrittenReceiver(c: Config, s: State, a: Action)
    requires OverwrittenInv(c, s) && ClientsInv(s) && Enabled(c, s, a) && (a.SubLag? || a.SubRecv?)
    ensures var u := Apply(c, s, a).subs[a.id]; LossesOverwritten(c, s.out.log, u.items, u.cursor)
  {
    var u := s.subs[a.id];
    if a.SubRecv? {
      OverwrittenSnoc(c, s.out.log, u.items, Got(s.out.log[u.cursor].chunk), u.cursor);
    } else {
      OverwrittenSnoc(c, s.out.log, u.items, Lagged(RingFloor(c, s.out.log) - u.cursor, a.writable), u.cursor);
    }
  }

  lemma OverwrittenOther(c: Config, s: State, a: Action, id: nat)
    requires OverwrittenInv(c, s) && Enabled(c, s, a) && id in Apply(c, s, a).subs
    requires !((a.SubLag? || a.SubRecv?) && a.id == id)
    ensures var t := Apply(c, s, a); LossesOverwritten(c, t.out.log, t.subs[id].items, t.subs[id].cursor)
  {
    LogOnlyGrows(c, s, a);
    if !ClientAction(a) {
      Frames(c, s, a);
    }
    if id in s.subs {
      OverwrittenStays(c, s.out.log, Apply(c, s, a).out.log, s.subs[id].items, s.subs[id].cursor);
    }
  }

  lemma OverwrittenStep(c: Config, s: State, a: Action)
    requires OverwrittenInv(c, s) && ClientsInv(s) && Enabled(c, s, a)
    ensures OverwrittenInv(c, Apply(c, s, a))
  {
    forall id | id in Apply(c, s, a).subs
      ensures var t := Apply(c, s, a); LossesOverwritten(c, t.out.log, t.subs[id].items, t.subs[id].cursor)
    {
      if (a.SubLag? || a.SubRecv?) && a.id == id {
        OverwrittenReceiver(c, s, a);
      } else {
        OverwrittenOther(c, s, a, id);
      }
    }
  }

  lemma {:induction false} OverwrittenInvariant(c: Config, s: State, acts: seq<Action>)
    requires OverwrittenInv(c, s) && ClientsInv(s) && Legal(c, s, acts)
    ensures OverwrittenInv(c, Run(c, s, acts))
    decreases |acts|
  {
    if acts != [] {
      OverwrittenStep(c, s, acts[0]);
      ClientsStep(c, s, acts[0]);
      OverwrittenInvariant(c, Apply(c, s, acts[0]), acts[1..]);
    }
  }

  lemma {:induction false} LossBeforeRing(c: Config, log: seq<Entry>, from: nat, items: seq<Item>, to: nat)
    requires Replay(log, from, items, to) && LossesOverwritten(c, log, items, to) && Missed(items) > 0
    ensures from + Missed(items) + c.ringCapacity <= |log|
  {
    var n := |items| - 1;
    if items[n].Got? {
      LossBeforeRing(c, log, from, items[..n], to - 1);
    } else {
      ReplayCounts(log, from, items, to);
    }
  }

  // In every run, a subscriber is told of losses only when more has been broadcast since it joined than
  // the ring holds, and of no more than the excess: what the ring still holds is never given up.
  lemma LossIsBounded(c: Config, acts: seq<Action>, id: nat)
    requires Legal(c, Init(), acts) && id in Run(c, Init(), acts).subs
    ensures var s := Run(c, Init(), acts);
            var since := |s.out.log| - s.subs[id].start;
            && Missed(s.subs[id].items) <= (if since > c.ringCapacity then since - c.ringCapacity else 0)
            && (since <= c.ringCapacity ==> Missed(s.subs[id].items) == 0)
  {
    ClientsInvariant(c, Init(), acts);
    OverwrittenInvariant(c, Init(), acts);
    var s := Run(c, Init(), acts);
    var u := s.subs[id];
    if Missed(u.items) > 0 {
      LossBeforeRing(c, s.out.log, u.start, u.items, u.cursor);
    }
  }
}
