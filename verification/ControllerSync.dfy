// Barrier and RdmaSession over whole runs: the clients move through the rounds in lockstep, and
// the counter of a round accounts for everyone who went through it.

module ControllerSync {
  import opened Wrappers
  import opened ControllerModel

  // ---------------------------------------------------------------- runs

  ghost function Next(cfg: Config, s: State, c: nat): State {
    if Runnable(cfg, s, c) && Enabled(cfg, s, c) then Step(cfg, s, c) else s
  }

  // A run names the client of each step; that client has one possible step.
  ghost function Run(cfg: Config, s: State, run: seq<nat>): State
    decreases |run|
  {
    if run == [] then s else Run(cfg, Next(cfg, s, run[0]), run[1..])
  }

  ghost predicate Legal(cfg: Config, s: State, run: seq<nat>)
    decreases |run|
  {
    run == [] || (Enabled(cfg, s, run[0]) && Legal(cfg, Next(cfg, s, run[0]), run[1..]))
  }

  lemma {:induction false} RunConcat(cfg: Config, s: State, a: seq<nat>, b: seq<nat>)
    ensures Run(cfg, s, a + b) == Run(cfg, Run(cfg, s, a), b)
    ensures Legal(cfg, s, a + b) <==> Legal(cfg, s, a) && Legal(cfg, Run(cfg, s, a), b)
    decreases |a|
  {
    hide Next, Enabled;
    if a == [] {
      assert a + b == b;
    } else {
      assert (a + b)[1..] == a[1..] + b;
      RunConcat(cfg, Next(cfg, s, a[0]), a[1..], b);
    }
  }

  // ---------------------------------------------------------------- the invariant

  // The Barrier and RdmaSession calls among the first k of the schedule.
  ghost function Syncs(sched: seq<Call>, k: nat): (m: nat)
    requires k <= |sched|
    ensures m <= k
  {
    if k == 0 then 0 else Syncs(sched, k - 1) + (if sched[k - 1].Broadcast? then 0 else 1)
  }

  lemma {:induction false} SyncsMonotone(sched: seq<Call>, j: nat, k: nat)
    requires j <= k <= |sched|
    ensures Syncs(sched, j) <= Syncs(sched, k) <= Syncs(sched, j) + (k - j)
    decreases k
  {
    if j < k {
      SyncsMonotone(sched, j, k - 1);
    }
  }

  ghost predicate InSync(cfg: Config, cl: Client) {
    cl.pc != Ready && cl.At() < |cfg.sched| && !cfg.sched[cl.At()].Broadcast?
  }

  // The rounds a client has finished, and those it has begun.
  ghost function Finished(cfg: Config, cl: Client): nat
    requires cl.At() <= |cfg.sched|
  {
    Syncs(cfg.sched, cl.At())
  }

  ghost function Begun(cfg: Config, cl: Client): nat
    requires cl.At() <= |cfg.sched|
  {
    Finished(cfg, cl) + (if InSync(cfg, cl) then 1 else 0)
  }

  ghost predicate InRound(cl: Client, q: nat) {
    cl.pc == Check(q) || cl.pc == Wait(q)
  }

  // Where a client can be while round r is open.
  ghost predicate Placed(cfg: Config, r: nat, cl: Client) {
    && cl.At() <= |cfg.sched|
    && (cl.pc != Ready ==> cl.At() < |cfg.sched|)
    && r <= Begun(cfg, cl) <= r + 1
    && (Begun(cfg, cl) == r + 1 ==> InRound(cl, r))
    && (cl.pc.Check? || cl.pc.Wait? ==> InSync(cfg, cl) && InRound(cl, Finished(cfg, cl)))
    && (cl.pc.Collect? ==> cfg.sched[cl.At()].Session?)
    && (cl.Holds() ==> cfg.sched[cl.At()].Broadcast?)
  }

  ghost predicate AllPlaced(cfg: Config, s: State) {
    |s.clients| == cfg.n && forall c :: 0 <= c < |s.clients| ==> Placed(cfg, s.g.opId, s.clients[c])
  }

  // The clients that have arrived in the open round.
  ghost function Arrived(cfg: Config, s: State): set<nat>
    requires AllPlaced(cfg, s)
  {
    set c | 0 <= c < |s.clients| && Begun(cfg, s.clients[c]) == s.g.opId + 1
  }

  // Round q, which is closed: its event is set, and its counter is n less the exits that went
  // through the wait; its entry is gone exactly when all n clients did.
  ghost predicate Accounted(s: State, n: nat, q: nat) {
    && q in s.g.fired
    && (forall c :: c in Via(s, q) ==> c < |s.clients| && !InRound(s.clients[c], q))
    && |Via(s, q)| <= n
    && (if |Via(s, q)| == n then q !in s.g.ctrs else q in s.g.ctrs && s.g.ctrs[q] == n - |Via(s, q)|)
  }

  // The open round: its counter is the number of its arrivals.
  ghost predicate OpenRound(cfg: Config, s: State)
    requires AllPlaced(cfg, s)
  {
    s.g.opId in s.g.ctrs && s.g.ctrs[s.g.opId] == |Arrived(cfg, s)| < cfg.n
  }

  ghost predicate Ledger(s: State, n: nat) {
    && s.g.events == s.g.ctrs.Keys
    && (forall q :: 0 <= q < s.g.opId ==> Accounted(s, n, q))
    && (forall q :: s.g.opId <= q ==> q !in s.g.fired && Via(s, q) == {})
    && (forall q :: q in s.g.ctrs ==> q <= s.g.opId)
  }

  ghost predicate SyncInv(cfg: Config, s: State) {
    AllPlaced(cfg, s) && OpenRound(cfg, s) && Ledger(s, cfg.n)
  }

  // ---------------------------------------------------------------- every step keeps it

  ghost function Clients(n: nat): (a: set<nat>)
    ensures forall c :: c in a <==> 0 <= c < n
    ensures |a| == n
  {
    if n == 0 then {} else Clients(n - 1) + {n - 1}
  }

  lemma AllOf(a: set<nat>, n: nat)
    requires forall c :: c in a ==> c < n
    ensures |a| <= n
    ensures |a| == n ==> forall c :: 0 <= c < n ==> c in a
  {
    assert a <= Clients(n);
    Subset(a, Clients(n));
  }

  lemma {:induction false} Subset(a: set<nat>, b: set<nat>)
    requires a <= b
    ensures |a| <= |b|
    ensures |a| == |b| ==> a == b
    decreases |b|
  {
    if a == {} {
    } else {
      var x :| x in a;
      Subset(a - {x}, b - {x});
      assert |a| == |a - {x}| + 1 && |b| == |b - {x}| + 1;
      assert a == (a - {x}) + {x} && b == (b - {x}) + {x};
    }
  }

  // The part of the server that the rounds depend on.
  ghost predicate SameRounds(g: Shared, g': Shared) {
    g.opId == g'.opId && g.ctrs == g'.ctrs && g.events == g'.events && g.fired == g'.fired
  }

  lemma StepSameRounds(cfg: Config, s: State, c: nat)
    requires Runnable(cfg, s, c) && Enabled(cfg, s, c)
    requires s.clients[c].pc == Ready ==> cfg.sched[s.clients[c].At()].Broadcast?
    requires !s.clients[c].pc.Wait?
    ensures SameRounds(s.g, Step(cfg, s, c).g) && Step(cfg, s, c).via == s.via
  {
  }

  // A step that leaves the rounds alone, and moves one client within its place.
  lemma QuietStep(cfg: Config, s: State, s': State, c: nat)
    requires SyncInv(cfg, s) && c < cfg.n
    requires SameRounds(s.g, s'.g) && s'.via == s.via
    requires |s'.clients| == cfg.n && s'.clients == s.clients[c := s'.clients[c]]
    requires Placed(cfg, s.g.opId, s'.clients[c])
    requires Begun(cfg, s'.clients[c]) == Begun(cfg, s.clients[c])
    requires forall q :: InRound(s'.clients[c], q) ==> InRound(s.clients[c], q)
    ensures SyncInv(cfg, s')
  {
    hide Placed, Begun;
    assert Arrived(cfg, s') == Arrived(cfg, s);
    assert forall q :: Via(s', q) == Via(s, q);
    forall q | 0 <= q < s.g.opId ensures Accounted(s', cfg.n, q) {
      assert Accounted(s, cfg.n, q);
    }
  }

  // A client makes the call that takes it into the open round.
  ghost predicate Arrives(cfg: Config, s: State, s': State, c: nat) {
    && AllPlaced(cfg, s) && Keyed(s.g, s.g.opId) && c < cfg.n && s.clients[c].pc == Ready
    && s.clients[c].At() < |cfg.sched| && !cfg.sched[s.clients[c].At()].Broadcast?
    && SameRounds(s'.g, Arrive(s.g, cfg.n)) && s'.via == s.via
    && s'.clients == s.clients[c := s.clients[c].(pc := Check(s.g.opId))]
  }

  lemma ArriveFacts(cfg: Config, s: State, s': State, c: nat)
    requires SyncInv(cfg, s) && Arrives(cfg, s, s', c)
    ensures c !in Arrived(cfg, s) && |Arrived(cfg, s)| < cfg.n
    ensures s'.clients[c].At() <= |cfg.sched| && InSync(cfg, s'.clients[c])
    ensures Begun(cfg, s'.clients[c]) == s.g.opId + 1 && Placed(cfg, s.g.opId, s'.clients[c])
    ensures var r := s.g.opId;
      if |Arrived(cfg, s)| + 1 < cfg.n then
        s'.g.opId == r && s'.g.ctrs == s.g.ctrs[r := |Arrived(cfg, s)| + 1] && s'.g.events == s.g.events
            && s'.g.fired == s.g.fired
      else
        s'.g.opId == r + 1 && s'.g.ctrs == s.g.ctrs[r := cfg.n][r + 1 := 0] && s'.g.events == s.g.events + {r + 1}
        && s'.g.fired == s.g.fired + {r}
  {
    hide Ledger;
    assert Placed(cfg, s.g.opId, s.clients[c]);
  }

  lemma ArriveLedger(cfg: Config, s: State, s': State, c: nat)
    requires SyncInv(cfg, s) && Arrives(cfg, s, s', c)
    ensures Ledger(s', cfg.n)
  {
    ArriveFacts(cfg, s, s', c);
    hide AllPlaced, OpenRound, Arrived, Placed, Begun, Arrive;
    assert forall q :: Via(s', q) == Via(s, q);
    assert |s'.clients| == |s.clients|;
    forall q | 0 <= q < s.g.opId ensures Accounted(s', cfg.n, q) {
      assert Accounted(s, cfg.n, q);
    }
  }

  lemma StaysOpen(cfg: Config, s: State, s': State, c: nat)
    requires SyncInv(cfg, s) && Arrives(cfg, s, s', c) && |Arrived(cfg, s)| + 1 < cfg.n
    ensures AllPlaced(cfg, s') && OpenRound(cfg, s')
  {
    ArriveFacts(cfg, s, s', c);
    hide Placed, Begun, Ledger, Arrive;
    assert AllPlaced(cfg, s');
    assert Arrived(cfg, s') == Arrived(cfg, s) + {c};
  }

  // The last arrival: everyone is in the round, which closes; the next one opens empty.
  lemma Closes(cfg: Config, s: State, s': State, c: nat)
    requires SyncInv(cfg, s) && Arrives(cfg, s, s', c) && |Arrived(cfg, s)| + 1 == cfg.n
    ensures AllPlaced(cfg, s') && OpenRound(cfg, s')
  {
    ArriveFacts(cfg, s, s', c);
    AllOf(Arrived(cfg, s) + {c}, cfg.n);
    hide Ledger, Arrive;
    forall d | 0 <= d < cfg.n
      ensures s'.clients[d].At() <= |cfg.sched|
      ensures Placed(cfg, s.g.opId + 1, s'.clients[d]) && Begun(cfg, s'.clients[d]) == s.g.opId + 1
    {
      NextRound(cfg, s, s', c, d);
    }
    hide Placed, Begun;
    assert AllPlaced(cfg, s');
    assert Arrived(cfg, s') == {};
  }

  lemma ArriveStep(cfg: Config, s: State, s': State, c: nat)
    requires SyncInv(cfg, s) && Arrives(cfg, s, s', c)
    ensures SyncInv(cfg, s')
  {
    ArriveFacts(cfg, s, s', c);
    ArriveLedger(cfg, s, s', c);
    if |Arrived(cfg, s)| + 1 < cfg.n {
      StaysOpen(cfg, s, s', c);
    } else {
      Closes(cfg, s, s', c);
    }
  }

  lemma NextRound(cfg: Config, s: State, s': State, c: nat, d: nat)
    requires AllPlaced(cfg, s) && c < cfg.n && d < cfg.n && |s'.clients| == cfg.n
    requires d != c ==> s'.clients[d] == s.clients[d] && d in Arrived(cfg, s)
    requires d == c ==>
      s'.clients[d] == s.clients[c].(pc := Check(s.g.opId)) && s.clients[c].pc == Ready && InSync(cfg, s'.clients[d])
    ensures s'.clients[d].At() <= |cfg.sched|
    ensures Placed(cfg, s.g.opId + 1, s'.clients[d]) && Begun(cfg, s'.clients[d]) == s.g.opId + 1
  {
    assert Placed(cfg, s.g.opId, s.clients[d]);
  }

  // A client leaves a closed round through the wait.
  lemma LeaveLedger(cfg: Config, s: State, s': State, c: nat, r: nat)
    requires Ledger(s, cfg.n) && r < s.g.opId && c < cfg.n == |s.clients| && s.clients[c].pc == Wait(r)
    requires Keyed(s.g, r) && s'.g == Leave(s.g, r) && s'.via == s.via[r := Via(s, r) + {c}]
    requires |s'.clients| == cfg.n && s'.clients == s.clients[c := s'.clients[c]]
    requires !s'.clients[c].pc.Check? && !s'.clients[c].pc.Wait?
    ensures Ledger(s', cfg.n)
  {
    assert Accounted(s, cfg.n, r) && c !in Via(s, r);
    AllOf(Via(s, r) + {c}, cfg.n);
    forall q ensures Via(s', q) == if q == r then Via(s, r) + {c} else Via(s, q) {}
    hide Via;
    forall q | 0 <= q < s.g.opId ensures Accounted(s', cfg.n, q) {
      assert Accounted(s, cfg.n, q);
    }
  }

  lemma LeaveStep(cfg: Config, s: State, s': State, c: nat, r: nat)
    requires SyncInv(cfg, s) && c < cfg.n && s.clients[c].pc == Wait(r) && r in s.g.fired
    requires Keyed(s.g, r) && s'.g == Leave(s.g, r) && s'.via == s.via[r := Via(s, r) + {c}]
    requires |s'.clients| == cfg.n && s'.clients == s.clients[c := s'.clients[c]]
    requires Placed(cfg, s.g.opId, s'.clients[c]) && !s'.clients[c].pc.Check? && !s'.clients[c].pc.Wait?
    requires Begun(cfg, s'.clients[c]) == Begun(cfg, s.clients[c])
    ensures SyncInv(cfg, s')
  {
    hide Placed, Begun;
    assert r < s.g.opId;
    LeaveLedger(cfg, s, s', c, r);
    hide Ledger;
    assert Arrived(cfg, s') == Arrived(cfg, s);
  }

  lemma RoundIsKeyed(cfg: Config, s: State, c: nat, r: nat)
    requires SyncInv(cfg, s) && c < cfg.n && InRound(s.clients[c], r)
    ensures r <= s.g.opId && Keyed(s.g, r)
    ensures r in s.g.fired <==> r < s.g.opId
    ensures 0 <= s.g.ctrs[r] <= cfg.n
    ensures r == s.g.opId ==> s.g.ctrs[r] < cfg.n
    ensures r < s.g.opId ==> s.g.ctrs[r] == cfg.n - |Via(s, r)| && 0 < s.g.ctrs[r]
  {
    assert Placed(cfg, s.g.opId, s.clients[c]);
    hide Placed, Begun;
    if r < s.g.opId {
      assert Accounted(s, cfg.n, r) && c !in Via(s, r);
      AllOf(Via(s, r), cfg.n);
    }
  }

  // The client after a step, when the step is not the one that opens a Barrier or RdmaSession.
  lemma MovesOn(cfg: Config, s: State, c: nat)
    requires Sound(cfg) && SyncInv(cfg, s) && Runnable(cfg, s, c) && Enabled(cfg, s, c)
    requires s.clients[c].pc == Ready ==> cfg.sched[s.clients[c].At()].Broadcast?
    ensures var cl := Step(cfg, s, c).clients[c];
      && Placed(cfg, s.g.opId, cl) && Begun(cfg, cl) == Begun(cfg, s.clients[c])
      && (forall q :: InRound(cl, q) ==> InRound(s.clients[c], q))
      && (s.clients[c].pc.Wait? ==> !cl.pc.Check? && !cl.pc.Wait?)
  {
    hide Ledger, OpenRound, Sound, Opened, Find, Cleanup, Mark, Post, PeerOf, Lookup, Via;
    var cl, r := s.clients[c], s.g.opId;
    assert Placed(cfg, r, cl);
    if cl.pc.Check? || cl.pc.Wait? {
      RoundIsKeyed(cfg, s, c, cl.pc.round);
      hide SyncInv;
      DoneMoves(cfg, cl, Done);
    } else {
      hide SyncInv, Arrive, Register, Leave;
      forall a { DoneMoves(cfg, cl, a); }
    }
  }

  lemma DoneMoves(cfg: Config, cl: Client, a: Answer)
    requires cl.At() < |cfg.sched|
    ensures cl.pc != Ready ==> Begun(cfg, cl.Finish(a)) == Begun(cfg, cl)
    ensures cl.Finish(a).At() == cl.At() + 1
  {
  }

  lemma StepKeepsSync(cfg: Config, s: State, c: nat)
    requires Sound(cfg) && SyncInv(cfg, s) && Runnable(cfg, s, c) && Enabled(cfg, s, c)
    ensures SyncInv(cfg, Step(cfg, s, c))
  {
    hide Placed, Begun, Accounted, Arrived, Opened, Find, Cleanup, Join;
    var cl := s.clients[c];
    if cl.pc == Ready && !cfg.sched[cl.At()].Broadcast? {
      ArriveStep(cfg, s, Step(cfg, s, c), c);
    } else {
      MovesOn(cfg, s, c);
      if cl.pc.Wait? {
        RoundIsKeyed(cfg, s, c, cl.pc.round);
        LeaveStep(cfg, s, Step(cfg, s, c), c, cl.pc.round);
      } else {
        StepSameRounds(cfg, s, c);
        QuietStep(cfg, s, Step(cfg, s, c), c);
      }
    }
  }

  lemma InitSync(cfg: Config)
    requires Sound(cfg)
    ensures SyncInv(cfg, Init(cfg))
  {
    var s := Init(cfg);
    assert AllPlaced(cfg, s);
    assert Arrived(cfg, s) == {};
  }

  lemma SyncSize(cfg: Config, s: State)
    requires SyncInv(cfg, s)
    ensures |s.clients| == cfg.n
  {
  }

  lemma CanAct(cfg: Config, s: State, c: nat)
    requires Sound(cfg) && SyncInv(cfg, s) && Enabled(cfg, s, c)
    ensures Runnable(cfg, s, c)
  {
    assert Placed(cfg, s.g.opId, s.clients[c]);
  }

  lemma {:induction false} RunKeepsSync(cfg: Config, s: State, run: seq<nat>)
    requires Sound(cfg) && SyncInv(cfg, s)
    ensures SyncInv(cfg, Run(cfg, s, run))
    decreases |run|
  {
    if run != [] {
      if Runnable(cfg, s, run[0]) && Enabled(cfg, s, run[0]) {
        StepKeepsSync(cfg, s, run[0]);
      }
      hide SyncInv, Runnable, Enabled, Step, Sound;
      RunKeepsSync(cfg, Next(cfg, s, run[0]), run[1..]);
    }
  }

  lemma Reachable(cfg: Config, run: seq<nat>)
    requires Sound(cfg)
    ensures SyncInv(cfg, Run(cfg, Init(cfg), run))
  {
    InitSync(cfg);
    RunKeepsSync(cfg, Init(cfg), run);
  }

  // ---------------------------------------------------------------- what follows for runs

  // Barrier and RdmaSession calls, which share the rounds, in lockstep: no client has finished
  // its k-th before every client has begun its k-th, the finished counts of two clients differ
  // by at most one, and the k-th call of a client is in round k.
  lemma Lockstep(cfg: Config, run: seq<nat>, c: nat, d: nat)
    requires Sound(cfg) && c < cfg.n && d < cfg.n
    ensures var s := Run(cfg, Init(cfg), run);
      && AllPlaced(cfg, s)
      && Finished(cfg, s.clients[c]) <= Begun(cfg, s.clients[d])
      && Finished(cfg, s.clients[c]) <= Finished(cfg, s.clients[d]) + 1
      && forall r :: InRound(s.clients[c], r) ==> r == Finished(cfg, s.clients[c])
  {
    Reachable(cfg, run);
    var s := Run(cfg, Init(cfg), run);
    assert Placed(cfg, s.g.opId, s.clients[c]) && Placed(cfg, s.g.opId, s.clients[d]);
  }

  // The same, by positions of the schedule: a client that is past a Barrier or RdmaSession finds
  // every other client there or beyond.
  lemma NoneBehind(cfg: Config, s: State, c: nat, d: nat, z: nat)
    requires SyncInv(cfg, s) && c < cfg.n && d < cfg.n
    requires z < s.clients[c].At() && z < |cfg.sched| && !cfg.sched[z].Broadcast?
    ensures z < s.clients[d].At() || (z == s.clients[d].At() && InSync(cfg, s.clients[d]))
  {
    hide OpenRound, Ledger;
    var x, y := s.clients[c], s.clients[d];
    assert Placed(cfg, s.g.opId, x) && Placed(cfg, s.g.opId, y);
    SyncsMonotone(cfg.sched, z + 1, x.At());
    if y.At() < z {
      SyncsMonotone(cfg.sched, y.At() + 1, z);
    }
  }

  // Counters: the open round counts its arrivals; a closed round, which everyone has begun,
  // counts n less those who left it through the wait, and has lost its entry exactly when that
  // was everyone. So whoever still has to look at a round finds it.
  lemma CounterAccounting(cfg: Config, run: seq<nat>, q: nat)
    requires Sound(cfg)
    ensures var s := Run(cfg, Init(cfg), run);
      && AllPlaced(cfg, s)
      && (q == s.g.opId ==> q in s.g.ctrs && s.g.ctrs[q] == |Arrived(cfg, s)| < cfg.n)
      && (q < s.g.opId ==>
            && (forall c :: 0 <= c < cfg.n ==> Begun(cfg, s.clients[c]) > q)
            && (q !in s.g.ctrs <==> Via(s, q) == Clients(cfg.n))
            && (q in s.g.ctrs ==> s.g.ctrs[q] == cfg.n - |Via(s, q)|))
      && (q > s.g.opId ==> q !in s.g.ctrs)
      && (q in s.g.events <==> q in s.g.ctrs)
      && (forall c :: 0 <= c < cfg.n && InRound(s.clients[c], q) ==> q in s.g.ctrs && c !in Via(s, q))
  {
    Reachable(cfg, run);
    var s := Run(cfg, Init(cfg), run);
    forall c | 0 <= c < cfg.n ensures q < s.g.opId ==> Begun(cfg, s.clients[c]) > q {
      assert Placed(cfg, s.g.opId, s.clients[c]);
    }
    if q < s.g.opId {
      assert Accounted(s, cfg.n, q);
      AllOf(Via(s, q), cfg.n);
      Subset(Via(s, q), Clients(cfg.n));
    }
    forall c | 0 <= c < cfg.n && InRound(s.clients[c], q) ensures q in s.g.ctrs && c !in Via(s, q) {
      RoundIsKeyed(cfg, s, c, q);
    }
  }
}
