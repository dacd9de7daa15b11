/**
 * Admission of clients as an interleaved step system: the full check of handler.rs and the subscription it
 * guards are separate steps, with an attach and possibly a wait for the fan-in queue between them.
 */
module Admission {

  // Requests that have passed the check and not subscribed yet, and requests that hold a receiver.
  datatype State = State(passed: set<nat>, live: set<nat>)

  datatype Action = Check(request: nat) | Abandon(request: nat) | Subscribe(request: nat) | Leave(request: nat)

  predicate Enabled(s: State, a: Action) {
    match a
    case Check(r) => r !in s.passed && r !in s.live
    case Abandon(r) => r in s.passed
    case Subscribe(r) => r in s.passed
    case Leave(r) => r in s.live
  }

  // A request that finds the session full is refused and leaves no trace; a connection may drop while
  // its request waits for the fan-in queue.
  function Apply(max: nat, s: State, a: Action): State
    requires Enabled(s, a)
  {
    match a
    case Check(r) => if |s.live| >= max then s else s.(passed := s.passed + {r})
    case Abandon(r) => s.(passed := s.passed - {r})
    case Subscribe(r) => State(s.passed - {r}, s.live + {r})
    case Leave(r) => s.(live := s.live - {r})
  }

  // A legal run in which never more than `p` requests stand between check and subscription.
  predicate Legal(max: nat, p: nat, s: State, acts: seq<Action>)
    decreases |acts|
  {
    && |s.passed| <= p
    && (acts == [] || (Enabled(s, acts[0]) && Legal(max, p, Apply(max, s, acts[0]), acts[1..])))
  }

  function Run(max: nat, p: nat, s: State, acts: seq<Action>): State
    requires Legal(max, p, s, acts)
    decreases |acts|
  {
    if acts == [] then s else Run(max, p, Apply(max, s, acts[0]), acts[1..])
  }

  function Init(): State {
    State({}, {})
  }

  predicate Inv(max: nat, p: nat, s: State) {
    && s.passed !! s.live
    && (max == 0 ==> s.passed == {} && s.live == {})
    && (max > 0 ==> |s.live| + |s.passed| <= max - 1 + p || |s.live| + |s.passed| == 0)
  }

  lemma StepKeeps(max: nat, p: nat, s: State, a: Action)
    requires Inv(max, p, s) && |s.passed| <= p && Enabled(s, a) && |Apply(max, s, a).passed| <= p
    ensures Inv(max, p, Apply(max, s, a))
  {
    var t := Apply(max, s, a);
    match a
    case Check(r) =>
    case Abandon(r) =>
      assert |t.passed| == |s.passed| - 1;
    case Subscribe(r) =>
      assert |t.passed| == |s.passed| - 1 && |t.live| == |s.live| + 1;
    case Leave(r) =>
      assert |t.live| == |s.live| - 1;
  }

  lemma {:induction false} RunKeeps(max: nat, p: nat, s: State, acts: seq<Action>)
    requires Inv(max, p, s) && Legal(max, p, s, acts)
    ensures Inv(max, p, Run(max, p, s, acts)) && |Run(max, p, s, acts).passed| <= p
    decreases |acts|
  {
    if acts != [] {
      StepKeeps(max, p, s, acts[0]);
      RunKeeps(max, p, Apply(max, s, acts[0]), acts[1..]);
    }
  }

  // With at most `p` requests between check and subscription, live subscribers never exceed
  // max_clients - 1 + p; when admissions are serialised (p = 1) they never exceed max_clients.
  lemma AdmissionBound(max: nat, p: nat, acts: seq<Action>)
    requires Legal(max, p, Init(), acts)
    ensures max >= 1 && p >= 1 ==> |Run(max, p, Init(), acts).live| <= max - 1 + p
    ensures max >= 1 && p == 1 ==> |Run(max, p, Init(), acts).live| <= max
    ensures max == 0 || p == 0 ==> Run(max, p, Init(), acts).live == {}
  {
    RunKeeps(max, p, Init(), acts);
    if p == 0 {
      NobodyPasses(max, Init(), acts);
    }
  }

  lemma {:induction false} NobodyPasses(max: nat, s: State, acts: seq<Action>)
    requires Legal(max, 0, s, acts) && s.live == {}
    ensures Run(max, 0, s, acts).live == {}
    decreases |acts|
  {
    if acts != [] {
      assert s.passed == {};
      NobodyPasses(max, Apply(max, s, acts[0]), acts[1..]);
    }
  }

  // ---- every place is accounted for -----------------------------------------------------------

  // Steps of each kind along a run; only a check that finds a free place counts.
  function Passes(max: nat, p: nat, s: State, acts: seq<Action>): nat
    requires Legal(max, p, s, acts)
    decreases |acts|
  {
    if acts == [] then 0
    else (if acts[0].Check? && |s.live| < max then 1 else 0) + Passes(max, p, Apply(max, s, acts[0]), acts[1..])
  }

  function Abandons(acts: seq<Action>): nat {
    if acts == [] then 0 else (if acts[0].Abandon? then 1 else 0) + Abandons(acts[1..])
  }

  function Subscribes(acts: seq<Action>): nat {
    if acts == [] then 0 else (if acts[0].Subscribe? then 1 else 0) + Subscribes(acts[1..])
  }

  function Leaves(acts: seq<Action>): nat {
    if acts == [] then 0 else (if acts[0].Leave? then 1 else 0) + Leaves(acts[1..])
  }

  lemma OneStepBalances(max: nat, s: State, a: Action)
    requires s.passed !! s.live && Enabled(s, a)
    ensures var t := Apply(max, s, a);
            && t.passed !! t.live
            && |t.live| == |s.live| + (if a.Subscribe? then 1 else 0) - (if a.Leave? then 1 else 0)
            && |t.passed| == |s.passed| + (if a.Check? && |s.live| < max then 1 else 0)
                 - (if a.Abandon? || a.Subscribe? then 1 else 0)
  {
  }

  // In every run: those who hold a receiver are those who subscribed less those who left, and those between
  // check and subscription are those who passed the check less those who gave up or subscribed.
  lemma {:induction false} PlacesBalance(max: nat, p: nat, s: State, acts: seq<Action>)
    requires s.passed !! s.live && Legal(max, p, s, acts)
    ensures |Run(max, p, s, acts).live| == |s.live| + Subscribes(acts) - Leaves(acts)
    ensures |Run(max, p, s, acts).passed| ==
              |s.passed| + Passes(max, p, s, acts) - Abandons(acts) - Subscribes(acts)
    decreases |acts|
  {
    if acts != [] {
      OneStepBalances(max, s, acts[0]);
      PlacesBalance(max, p, Apply(max, s, acts[0]), acts[1..]);
    }
  }

  // ---- the bound is attained ------------------------------------------------------------------

  lemma {:induction false} Extend(max: nat, p: nat, s: State, acts: seq<Action>, a: Action)
    requires Legal(max, p, s, acts) && Enabled(Run(max, p, s, acts), a)
    requires |Apply(max, Run(max, p, s, acts), a).passed| <= p
    ensures Legal(max, p, s, acts + [a])
    ensures Run(max, p, s, acts + [a]) == Apply(max, Run(max, p, s, acts), a)
    decreases |acts|
  {
    if acts == [] {
      assert [] + [a] == [a] && [a][1..] == [];
      assert |s.passed| <= p;
      assert Legal(max, p, Apply(max, s, a), []);
    } else {
      assert (acts + [a])[0] == acts[0] && (acts + [a])[1..] == acts[1..] + [a];
      Extend(max, p, Apply(max, s, acts[0]), acts[1..], a);
    }
  }

  // The requests numbered from `lo` up to, not including, `hi`.
  function Range(lo: nat, hi: nat): (r: set<nat>)
    ensures lo <= hi ==> |r| == hi - lo
    ensures forall x: nat :: x in r <==> lo <= x < hi
    decreases hi
  {
    if lo < hi then Range(lo, hi - 1) + {hi - 1} else {}
  }

  // Requests below `a` have subscribed, those from `a` to `b` have passed the check.
  function Progress(a: nat, b: nat): State {
    State(Range(a, b), Range(0, a))
  }

  predicate Reaches(max: nat, p: nat, acts: seq<Action>, a: nat, b: nat) {
    Legal(max, p, Init(), acts) && Run(max, p, Init(), acts) == Progress(a, b)
  }

  lemma OneChecks(max: nat, p: nat, acts: seq<Action>, a: nat, b: nat)
    requires a < max && a <= b < a + p
    requires Reaches(max, p, acts, a, b)
    ensures Reaches(max, p, acts + [Check(b)], a, b + 1)
  {
    assert Apply(max, Progress(a, b), Check(b)) == Progress(a, b + 1);
    Extend(max, p, Init(), acts, Check(b));
  }

  lemma OneSubscribes(max: nat, p: nat, acts: seq<Action>, a: nat, b: nat)
    requires a < b <= a + p
    requires Reaches(max, p, acts, a, b)
    ensures Reaches(max, p, acts + [Subscribe(a)], a + 1, b)
  {
    SubscribeAdvances(max, a, b);
    Extend(max, p, Init(), acts, Subscribe(a));
  }

  lemma SubscribeAdvances(max: nat, a: nat, b: nat)
    requires a < b
    ensures Enabled(Progress(a, b), Subscribe(a))
    ensures Apply(max, Progress(a, b), Subscribe(a)) == Progress(a + 1, b)
  {
    RangeWithoutFirst(a, b);
    RangeWithNext(a);
  }

  lemma RangeWithoutFirst(a: nat, b: nat)
    requires a < b
    ensures Range(a + 1, b) == Range(a, b) - {a}
  {
  }

  lemma RangeWithNext(a: nat)
    ensures Range(0, a + 1) == Range(0, a) + {a}
  {
  }

  // For every limit and every width some run does reach max_clients - 1 + p subscribers: with two
  // requests in admission at a time the limit itself is already exceeded.
  lemma AdmissionBoundTight(max: nat, p: nat) returns (acts: seq<Action>)
    requires max >= 1 && p >= 1
    ensures Legal(max, p, Init(), acts) && |Run(max, p, Init(), acts).live| == max - 1 + p
  {
    acts := [];
    var a := 0;
    // serial admissions fill the session up to one free place
    while a < max - 1
      invariant a <= max - 1 && Reaches(max, p, acts, a, a)
    {
      OneChecks(max, p, acts, a, a);
      OneSubscribes(max, p, acts + [Check(a)], a, a + 1);
      acts := acts + [Check(a)] + [Subscribe(a)];
      a := a + 1;
    }
    // p more requests pass the check for that place
    var b := a;
    while b < a + p
      invariant b <= a + p && Reaches(max, p, acts, a, b)
    {
      OneChecks(max, p, acts, a, b);
      acts := acts + [Check(b)];
      b := b + 1;
    }
    // and all of them subscribe
    while a < b
      invariant a <= b <= a + p && b == max - 1 + p && Reaches(max, p, acts, a, b)
    {
      OneSubscribes(max, p, acts, a, b);
      acts := acts + [Subscribe(a)];
      a := a + 1;
    }
  }
}
