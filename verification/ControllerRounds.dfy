// Who waits in a round of Barrier or RdmaSession and who does not, what becomes of the counter of
// the round, and what kind of answer a call gets.

module ControllerRounds {
  import opened Wrappers
  import opened ControllerModel
  import opened ControllerSync

  // Client c has begun and left round r, and not through the wait.
  ghost predicate Skipped(s: State, c: nat, r: nat) {
    c < |s.clients| && r < s.g.opId && c !in Via(s, r) && !InRound(s.clients[c], r)
  }

  // The client after the round part of its call: answered, or about to read the session.
  ghost predicate IsPast(call: Call, cl: Client, cl': Client) {
    if call.Session? then cl'.pc == Collect && cl'.got == cl.got
    else cl'.pc == Ready && cl'.got == cl.got + [Done]
  }

  lemma NextRun(cfg: Config, run: seq<nat>, c: nat)
    requires Sound(cfg)
    ensures var s := Run(cfg, Init(cfg), run);
      && Run(cfg, Init(cfg), run + [c]) == Next(cfg, s, c)
      && (Legal(cfg, Init(cfg), run + [c]) <==> Legal(cfg, Init(cfg), run) && Enabled(cfg, s, c))
      && SyncInv(cfg, s)
  {
    Reachable(cfg, run);
    hide SyncInv, Next, Enabled, Sound;
    assert [c][1..] == [];
    RunConcat(cfg, Init(cfg), run, [c]);
  }

  // ---------------------------------------------------------------- who waits

  lemma CheckStep(cfg: Config, s: State, c: nat, r: nat)
    requires Sound(cfg) && SyncInv(cfg, s) && c < cfg.n && s.clients[c].pc == Check(r)
    ensures Enabled(cfg, s, c) && s.clients[c].At() < |cfg.sched|
    ensures var s', cl := Next(cfg, s, c), s.clients[c];
      && s'.g == s.g && s'.via == s.via && |s'.clients| == |s.clients|
      && s'.clients == s.clients[c := s'.clients[c]]
      && (if r < s.g.opId && Via(s, r) == {} then IsPast(cfg.sched[cl.At()], cl, s'.clients[c]) && Skipped(s', c, r)
          else s'.clients[c] == cl.(pc := Wait(r)))
  {
    RoundIsKeyed(cfg, s, c, r);
    assert Placed(cfg, s.g.opId, s.clients[c]);
    CanAct(cfg, s, c);
    if r < s.g.opId {
      assert Accounted(s, cfg.n, r);
    }
    hide Ledger, OpenRound, Sound;
  }

  // A client that has arrived in round r looks at the counter without the lock. If the round is
  // closed and nobody has left it through the wait yet, the client is past it at once, and does not
  // count itself out; in any other case it goes to wait.
  lemma CheckPasses(cfg: Config, run: seq<nat>, c: nat, r: nat)
    requires Sound(cfg) && Legal(cfg, Init(cfg), run) && c < cfg.n
    requires var s := Run(cfg, Init(cfg), run); c < |s.clients| && s.clients[c].pc == Check(r)
    ensures Legal(cfg, Init(cfg), run + [c])
    ensures var s, s' := Run(cfg, Init(cfg), run), Run(cfg, Init(cfg), run + [c]);
      var cl := s.clients[c];
      && cl.At() < |cfg.sched| && s'.g == s.g && s'.via == s.via && |s'.clients| == cfg.n
      && (if r < s.g.opId && Via(s, r) == {} then IsPast(cfg.sched[cl.At()], cl, s'.clients[c]) && Skipped(s', c, r)
          else s'.clients[c] == cl.(pc := Wait(r)))
  {
    NextRun(cfg, run, c);
    CheckStep(cfg, Run(cfg, Init(cfg), run), c, r);
    SyncSize(cfg, Run(cfg, Init(cfg), run));
  }

  lemma WaitStep(cfg: Config, s: State, c: nat, r: nat)
    requires Sound(cfg) && SyncInv(cfg, s) && c < cfg.n && s.clients[c].pc == Wait(r)
    ensures s.clients[c].At() < |cfg.sched| && (Enabled(cfg, s, c) <==> r < s.g.opId)
    ensures r < s.g.opId ==>
      var s', cl := Next(cfg, s, c), s.clients[c];
      && c < |s'.clients| && IsPast(cfg.sched[cl.At()], cl, s'.clients[c])
      && c !in Via(s, r) && Via(s', r) == Via(s, r) + {c}
  {
    RoundIsKeyed(cfg, s, c, r);
    assert Placed(cfg, s.g.opId, s.clients[c]);
    if r < s.g.opId {
      CanAct(cfg, s, c);
      assert Accounted(s, cfg.n, r);
    }
    hide Ledger, OpenRound, Sound;
  }

  // A client that waits in round r is released exactly when the round is closed, and then counts
  // itself out and is past it.
  lemma WaitLeaves(cfg: Config, run: seq<nat>, c: nat, r: nat)
    requires Sound(cfg) && Legal(cfg, Init(cfg), run) && c < cfg.n
    requires var s := Run(cfg, Init(cfg), run); c < |s.clients| && s.clients[c].pc == Wait(r)
    ensures Legal(cfg, Init(cfg), run + [c]) <==> r < Run(cfg, Init(cfg), run).g.opId
    ensures r < Run(cfg, Init(cfg), run).g.opId ==>
      var s, s' := Run(cfg, Init(cfg), run), Run(cfg, Init(cfg), run + [c]);
      var cl := s.clients[c];
      && cl.At() < |cfg.sched| && c < |s'.clients| && IsPast(cfg.sched[cl.At()], cl, s'.clients[c])
      && c !in Via(s, r) && Via(s', r) == Via(s, r) + {c}
  {
    NextRun(cfg, run, c);
    WaitStep(cfg, Run(cfg, Init(cfg), run), c, r);
  }

  // The client whose arrival fills the round, if it looks at the counter right away, never waits.
  lemma LastArrivalPasses(cfg: Config, run: seq<nat>, c: nat)
    requires Sound(cfg) && Legal(cfg, Init(cfg), run + [c]) && c < cfg.n
    requires var s := Run(cfg, Init(cfg), run);
      && AllPlaced(cfg, s) && s.clients[c].pc == Ready && s.clients[c].At() < |cfg.sched|
      && !cfg.sched[s.clients[c].At()].Broadcast? && |Arrived(cfg, s)| + 1 == cfg.n
    ensures Legal(cfg, Init(cfg), run + [c] + [c])
    ensures var s, s' := Run(cfg, Init(cfg), run), Run(cfg, Init(cfg), run + [c] + [c]);
      && c < |s'.clients| && s'.g.opId == s.g.opId + 1 && Skipped(s', c, s.g.opId)
      && IsPast(cfg.sched[s.clients[c].At()], s.clients[c], s'.clients[c])
  {
    NextRun(cfg, run, c);
    NextRun(cfg, run + [c], c);
    var s := Run(cfg, Init(cfg), run);
    var s1 := Run(cfg, Init(cfg), run + [c]);
    CanAct(cfg, s, c);
    FillsRound(cfg, s, c);
    CheckStep(cfg, s1, c, s.g.opId);
  }

  lemma FillsRound(cfg: Config, s: State, c: nat)
    requires Sound(cfg) && SyncInv(cfg, s) && Runnable(cfg, s, c) && Enabled(cfg, s, c)
    requires s.clients[c].pc == Ready && !cfg.sched[s.clients[c].At()].Broadcast? && |Arrived(cfg, s)| + 1 == cfg.n
    ensures var s' := Next(cfg, s, c);
      && s'.g.opId == s.g.opId + 1 && Via(s', s.g.opId) == {}
      && s'.clients == s.clients[c := s.clients[c].(pc := Check(s.g.opId))]
  {
    hide Placed, Begun, Accounted, Arrived;
    ArriveFacts(cfg, s, Next(cfg, s, c), c);
  }

  // ---------------------------------------------------------------- what becomes of the counter

  lemma StepSkipped(cfg: Config, s: State, x: nat, c: nat, r: nat)
    requires Sound(cfg) && SyncInv(cfg, s) && Runnable(cfg, s, x) && Enabled(cfg, s, x) && Skipped(s, c, r)
    ensures Skipped(Step(cfg, s, x), c, r)
    ensures Via(s, r) <= Via(Step(cfg, s, x), r)
  {
    OthersStay(cfg, s, x);
    StepExits(cfg, s, x, r);
    hide SyncInv, Sound, Step;
  }

  // Only an exit through the wait is recorded; rounds do not reopen, and nobody comes back to one.
  lemma StepExits(cfg: Config, s: State, x: nat, r: nat)
    requires Runnable(cfg, s, x) && r < s.g.opId
    ensures var s' := Step(cfg, s, x);
      && s'.g.opId >= s.g.opId
      && (Via(s', r) == Via(s, r) || (Via(s', r) == Via(s, r) + {x} && s.clients[x].pc == Wait(r)))
      && (InRound(s'.clients[x], r) ==> InRound(s.clients[x], r))
  {
    hide Sound, Find, Cleanup, PeerOf, Lookup;
  }

  lemma {:induction false} RunSkipped(cfg: Config, s: State, run: seq<nat>, c: nat, r: nat)
    requires Sound(cfg) && SyncInv(cfg, s) && Skipped(s, c, r)
    ensures Skipped(Run(cfg, s, run), c, r)
    decreases |run|
  {
    if run != [] {
      hide SyncInv, Runnable, Enabled, Step, Sound, Skipped;
      if Runnable(cfg, s, run[0]) && Enabled(cfg, s, run[0]) {
        StepKeepsSync(cfg, s, run[0]);
        StepSkipped(cfg, s, run[0], c, r);
      }
      RunSkipped(cfg, Next(cfg, s, run[0]), run[1..], c, r);
    }
  }

  // Whoever passes a round without waiting leaves its counter behind for good: it stays above zero
  // and its entry is never deleted, however the run goes on.
  lemma SkippedStays(cfg: Config, run: seq<nat>, later: seq<nat>, c: nat, r: nat)
    requires Sound(cfg) && c < cfg.n && Skipped(Run(cfg, Init(cfg), run), c, r)
    ensures var s := Run(cfg, Init(cfg), run + later);
      Skipped(s, c, r) && r in s.g.ctrs && s.g.ctrs[r] >= 1 && r in s.g.events
  {
    hide Skipped;
    Reachable(cfg, run);
    RunConcat(cfg, Init(cfg), run, later);
    RunSkipped(cfg, Run(cfg, Init(cfg), run), later, c, r);
    Reachable(cfg, run + later);
    KeptCounter(cfg, Run(cfg, Init(cfg), run + later), c, r);
  }

  lemma KeptCounter(cfg: Config, s: State, c: nat, r: nat)
    requires SyncInv(cfg, s) && c < cfg.n && Skipped(s, c, r)
    ensures r in s.g.ctrs && s.g.ctrs[r] >= 1 && r in s.g.events
  {
    assert Accounted(s, cfg.n, r);
    AllOf(Via(s, r), cfg.n);
  }

  // ---------------------------------------------------------------- what kind of answer

  ghost predicate Suits(call: Call, a: Answer) {
    match call
    case Barrier => a == Done
    case Broadcast(_, _) => a.Value?
    case Session(_, _, _) => a.Peer?
  }

  ghost predicate AllSuit(cfg: Config, cl: Client) {
    cl.At() <= |cfg.sched| && forall j :: 0 <= j < |cl.got| ==> Suits(cfg.sched[j], cl.got[j])
  }

  lemma StepFits(cfg: Config, s: State, c: nat)
    requires Sound(cfg) && SyncInv(cfg, s) && Runnable(cfg, s, c) && Enabled(cfg, s, c)
    requires AllSuit(cfg, s.clients[c])
    ensures AllSuit(cfg, Step(cfg, s, c).clients[c])
  {
    assert Placed(cfg, s.g.opId, s.clients[c]);
    hide SyncInv, Sound, Enter, PeerOf, Leave, Mark, Via;
  }

  lemma {:induction false} RunFits(cfg: Config, s: State, run: seq<nat>)
    requires Sound(cfg) && SyncInv(cfg, s) && |s.clients| == cfg.n
    requires forall c :: 0 <= c < cfg.n ==> AllSuit(cfg, s.clients[c])
    ensures |Run(cfg, s, run).clients| == cfg.n
    ensures forall c :: 0 <= c < cfg.n ==> AllSuit(cfg, Run(cfg, s, run).clients[c])
    decreases |run|
  {
    if run != [] {
      var x := run[0];
      if Runnable(cfg, s, x) && Enabled(cfg, s, x) {
        StepKeepsSync(cfg, s, x);
        StepFits(cfg, s, x);
        OthersStay(cfg, s, x);
      }
      hide SyncInv, Runnable, Enabled, Step, Sound, AllSuit;
      RunFits(cfg, Next(cfg, s, x), run[1..]);
    }
  }

  lemma OthersStay(cfg: Config, s: State, x: nat)
    requires Runnable(cfg, s, x)
    ensures Step(cfg, s, x).clients == s.clients[x := Step(cfg, s, x).clients[x]]
  {
    hide Act;
  }

  // In any run a completed Barrier has answered without a result, a completed Broadcast with a
  // value or None, and a completed RdmaSession with an endpoint.
  lemma AnswerKinds(cfg: Config, run: seq<nat>, c: nat, j: nat)
    requires Sound(cfg) && c < cfg.n
    ensures var s := Run(cfg, Init(cfg), run);
      && |s.clients| == cfg.n && |s.clients[c].got| <= |cfg.sched|
      && (j < |s.clients[c].got| ==>
            var call, a := cfg.sched[j], s.clients[c].got[j];
            if call.Barrier? then a == Done else if call.Broadcast? then a.Value? else a.Peer?)
  {
    InitSync(cfg);
    assert forall d :: 0 <= d < cfg.n ==> Init(cfg).clients[d].got == [];
    RunFits(cfg, Init(cfg), run);
    assert AllSuit(cfg, Run(cfg, Init(cfg), run).clients[c]);
  }
}
