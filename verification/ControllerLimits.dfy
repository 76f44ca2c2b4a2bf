// Where the collectives stop working: with more clients than threads they can block for ever,
// and with two Broadcasts in a row a client can get the value of the wrong one. Both limits are
// exact.

module ControllerLimits {
  import opened Wrappers
  import opened ControllerModel
  import opened ControllerSync
  import opened ControllerCasts
  import opened ControllerAgreement
  import opened ControllerSessions
  import opened ControllerProgress
  import opened ControllerPacing

  // ---------------------------------------------------------------- more clients than threads

  // The clients in a have made the first call and wait in it; nobody else has begun.
  ghost predicate CastCrowd(cfg: Config, s: State, a: set<nat>) {
    && s.g.created == |s.g.rows| && s.g.posted == {} && |s.g.rows| <= 1
    && (forall x :: 0 <= x < |s.g.rows| ==> s.g.rows[x] == NewRow(cfg.n, 0))
    && (forall c :: c in a ==> c < |s.clients| && s.clients[c] == Client(RowWait(0, 0), []))
  }

  ghost predicate SyncCrowd(cfg: Config, s: State, a: set<nat>) {
    && s.g.opId == 0 && Keyed(s.g, 0) && s.g.ctrs[0] == |a| && s.g.fired == {}
    && (forall c :: c in a ==> c < |s.clients| && s.clients[c] == Client(Wait(0), []))
  }

  ghost predicate Crowd(cfg: Config, s: State, a: set<nat>) {
    && Sound(cfg) && |cfg.sched| > 0 && |s.clients| == cfg.n
    && (forall c :: 0 <= c < cfg.n && c !in a ==> s.clients[c] == Client(Ready, []))
    && (if cfg.sched[0].Broadcast? then CastCrowd(cfg, s, a) && cfg.sched[0].root !in a else SyncCrowd(cfg, s, a))
  }

  lemma CrowdBusy(cfg: Config, s: State, a: set<nat>)
    requires Crowd(cfg, s, a)
    ensures BusyClients(s) == a
  {
    hide Sound;
  }

  lemma CastCrowdGrows(cfg: Config, s: State, a: set<nat>, c: nat)
    requires Crowd(cfg, s, a) && cfg.sched[0].Broadcast? && |a| < POOL_SIZE && c < cfg.n && c !in a
      && c != cfg.sched[0].root
    ensures Enabled(cfg, s, c) && Runnable(cfg, s, c) && Crowd(cfg, Step(cfg, s, c), a + {c})
  {
    CrowdBusy(cfg, s, a);
    var call := cfg.sched[0];
    assert Fits(call, cfg.n) && s.clients[c] == Client(Ready, []);
    CastCrowdJoins(s.g, cfg.n, c, call.root, call.values[c]);
    hide Sound, Join, BusyClients, NewRow;
  }

  lemma CastCrowdJoins(g: Shared, n: nat, c: nat, root: nat, v: nat)
    requires g.created == |g.rows| <= 1 && forall x :: 0 <= x < |g.rows| ==> g.rows[x] == NewRow(n, 0)
    requires c < n && c != root
    ensures Join(g, n, c, root, v) == (g.(rows := [NewRow(n, 0)], created := 1), RowWait(0, 0))
  {
    var w := NewRow(n, 0);
    assert w.marks[c] == false && w.value == None && w.event == 0 && |w.marks| == n;
    CleanupOne(g.rows);
    assert Cleanup(g.rows) == g.rows && Find(g.rows, c) == 0;
    assert Opened(g, n, c).rows == [w];
    hide Cleanup, Find, NewRow;
  }

  lemma SyncCrowdGrows(cfg: Config, s: State, a: set<nat>, c: nat)
    requires Crowd(cfg, s, a) && !cfg.sched[0].Broadcast? && |a| < POOL_SIZE < cfg.n && c < cfg.n && c !in a
    ensures Enabled(cfg, s, c) && Runnable(cfg, s, c)
    ensures var s1 := Step(cfg, s, c);
      Enabled(cfg, s1, c) && Runnable(cfg, s1, c) && Crowd(cfg, Step(cfg, s1, c), a + {c})
  {
    CrowdBusy(cfg, s, a);
    assert Fits(cfg.sched[0], cfg.n) && s.clients[c] == Client(Ready, []);
    hide Sound, BusyClients, Lookup;
  }

  // Some client that is not in the crowd, and not the root.
  lemma Outsider(n: nat, a: set<nat>, root: nat) returns (c: nat)
    requires |a| + 1 < n
    ensures c < n && c !in a && c != root
  {
    var b := a + {root};
    if forall x :: 0 <= x < n ==> x in b {
      assert Clients(n) <= b;
      Subset(Clients(n), b);
      assert false;
    }
    c :| 0 <= c < n && c !in b;
  }

  lemma OneMore(cfg: Config, s: State, c: nat)
    requires Enabled(cfg, s, c) && Runnable(cfg, s, c)
    ensures Legal(cfg, s, [c]) && Run(cfg, s, [c]) == Step(cfg, s, c)
  {
    hide Enabled, Runnable, Step;
    assert [c][1..] == [];
  }

  lemma TwoMore(cfg: Config, s: State, c: nat, h: nat)
    requires Enabled(cfg, s, c) && Runnable(cfg, s, c)
    requires Enabled(cfg, Step(cfg, s, c), h) && Runnable(cfg, Step(cfg, s, c), h)
    ensures Legal(cfg, s, [c, h]) && Run(cfg, s, [c, h]) == Step(cfg, Step(cfg, s, c), h)
  {
    hide Enabled, Runnable, Step;
    var one: seq<nat>, two: seq<nat> := [h], [c, h];
    var s1 := Step(cfg, s, c);
    assert Next(cfg, s, c) == s1;
    assert one[1..] == [] && two[1..] == one;
    assert Legal(cfg, s1, one) && Run(cfg, s1, one) == Run(cfg, Next(cfg, s1, h), one[1..]);
    assert Legal(cfg, s, two) && Run(cfg, s, two) == Run(cfg, s1, one);
  }

  lemma CrowdGrows(cfg: Config, s: State, a: set<nat>, c: nat) returns (run: seq<nat>)
    requires Crowd(cfg, s, a) && |a| < POOL_SIZE < cfg.n && c < cfg.n && c !in a
    requires cfg.sched[0].Broadcast? ==> c != cfg.sched[0].root
    ensures Legal(cfg, s, run) && Crowd(cfg, Run(cfg, s, run), a + {c})
  {
    hide CastCrowd, SyncCrowd, Step, Enabled, Runnable, Sound, Legal, Run;
    if cfg.sched[0].Broadcast? {
      CastCrowdGrows(cfg, s, a, c);
      OneMore(cfg, s, c);
      run := [c];
    } else {
      SyncCrowdGrows(cfg, s, a, c);
      TwoMore(cfg, s, c, c);
      run := [c, c];
    }
  }

  lemma {:induction false} CrowdFills(cfg: Config, s: State, a: set<nat>) returns (run: seq<nat>, b: set<nat>)
    requires Crowd(cfg, s, a) && |a| <= POOL_SIZE < cfg.n
    ensures Legal(cfg, s, run) && Crowd(cfg, Run(cfg, s, run), b) && |b| == POOL_SIZE
    decreases POOL_SIZE - |a|
  {
    if |a| == POOL_SIZE {
      run, b := [], a;
    } else {
      var c := Outsider(cfg.n, a, if cfg.sched[0].Broadcast? then cfg.sched[0].root else 0);
      var first := CrowdGrows(cfg, s, a, c);
      hide CastCrowd, SyncCrowd, Legal, Run;
      var rest;
      rest, b := CrowdFills(cfg, Run(cfg, s, first), a + {c});
      run := first + rest;
      RunConcat(cfg, s, first, rest);
    }
  }

  lemma CrowdStuck(cfg: Config, s: State, a: set<nat>)
    requires Crowd(cfg, s, a) && |a| == POOL_SIZE
    ensures !AllDone(cfg, s) && forall c :: !Enabled(cfg, s, c)
  {
    CrowdBusy(cfg, s, a);
    hide Sound, BusyClients;
    forall c ensures !Enabled(cfg, s, c) {}
    var x :| x in a;
    assert s.clients[x].pc != Ready;
  }

  // With more clients than threads, whatever the first call is, ten clients can come to wait in it
  // for one that gets no thread.
  lemma OverfullStops(cfg: Config) returns (run: seq<nat>)
    requires Sound(cfg) && cfg.sched != [] && cfg.n > 10
    ensures Legal(cfg, Init(cfg), run)
    ensures var e := Run(cfg, Init(cfg), run); !AllDone(cfg, e) && forall c :: !Enabled(cfg, e, c)
  {
    assert Crowd(cfg, Init(cfg), {});
    var b;
    run, b := CrowdFills(cfg, Init(cfg), {});
    CrowdStuck(cfg, Run(cfg, Init(cfg), run), b);
  }

  // ---------------------------------------------------------------- Broadcasts in a row

  // The row of call p - 1 is complete and the only one.
  lemma RowComplete(cfg: Config, s: State, p: nat, h: nat)
    requires CastInv(cfg, s) && OneRow(s) && OneLeft(cfg, s, p, h, Late)
    requires 0 < p < |cfg.sched| && cfg.sched[p - 1].Broadcast?
    ensures s.clients[h].pc.idx == 0 && |s.g.rows| == 1 && Cleanup(s.g.rows) == []
  {
    var m := MarksOf(cfg, s);
    assert HolderOk(cfg, s.g, h, s.clients[h]);
    hide Sound, PostsOk, InRange, Cleanup;
    var e := Asked(cfg, s.clients[h]);
    assert Syncs(cfg.sched, p) == Syncs(cfg.sched, p - 1);
    forall d | 0 <= d < cfg.n ensures m[d] == e + 1 {}
    assert RowOk(cfg, s.g.created, m, s.g.rows[0], Base(s.g) + 0);
    CleanupOne(s.g.rows);
  }

  // Client c begins call p first: the row that h is about to read is deleted, and the row of
  // call p takes its place.
  lemma Overtakes(cfg: Config, s: State, p: nat, c: nat, h: nat)
    requires CastInv(cfg, s) && OneRow(s) && OneLeft(cfg, s, p, h, Late) && c < cfg.n && c != h
    requires BackToBack(cfg.sched, p)
    ensures Enabled(cfg, s, c) && Runnable(cfg, s, c)
    ensures var s1 := Step(cfg, s, c);
      && |s1.clients| == cfg.n && s1.clients[h] == s.clients[h]
      && Fits(cfg.sched[p], cfg.n) && |s1.g.rows| == 1
      && s1.g.rows[0].value == if c == cfg.sched[p].root then Some(cfg.sched[p].values[c]) else None
  {
    RowComplete(cfg, s, p, h);
    assert BusyClients(s) <= {h};
    Subset(BusyClients(s), {h});
    assert Fits(cfg.sched[p], cfg.n) by { assert Sound(cfg); }
    hide CastInv, OneRow, BusyClients, Cleanup;
    var rows := Cleanup(s.g.rows);
    assert Find(rows, c) == 0;
    hide Find;
  }

  // What client h then reads, as the answer to call p - 1.
  lemma ReadsNext(cfg: Config, s: State, p: nat, h: nat, v: Option<nat>)
    requires 0 < p < |cfg.sched| && cfg.sched[p - 1].Broadcast? && Fits(cfg.sched[p - 1], cfg.n)
    requires h < |s.clients| == cfg.n && s.clients[h].pc == RowRead(0) && s.clients[h].At() == p - 1
    requires |s.g.rows| == 1 && s.g.rows[0].value == v
    ensures Enabled(cfg, s, h) && Runnable(cfg, s, h)
    ensures var got := Step(cfg, s, h).clients[h].got; |got| == p && got[p - 1] == Value(v)
  {
  }

  // Where nothing holds the clients up before two Broadcasts in a row, any client c can overtake
  // any other, h, which then gets, for the first of the two, what c has put into the row of the
  // second: its value if c is the root, and else nothing.
  lemma Overtaken(cfg: Config, p: nat, c: nat, h: nat) returns (run: seq<nat>)
    requires Sound(cfg) && BackToBack(cfg.sched, p) && OpenTo(cfg, p) && c < cfg.n && h < cfg.n && c != h
    ensures Legal(cfg, Init(cfg), run)
    ensures var s := Run(cfg, Init(cfg), run);
      && |s.clients| == cfg.n && |s.clients[h].got| == p && Fits(cfg.sched[p], cfg.n)
      && s.clients[h].got[p - 1] == Value(if c == cfg.sched[p].root then Some(cfg.sched[p].values[c]) else None)
  {
    assert Fits(cfg.sched[p], cfg.n) && Fits(cfg.sched[p - 1], cfg.n);
    hide Sound, SyncInv, CastInv, SessionInv, OneRow, Step, Enabled, Runnable, Init, Stable, Legal, Run, OpenTo;
    var start := PacedFromStart(cfg, p, h, Late);
    var s := Run(cfg, Init(cfg), start);
    RowComplete(cfg, s, p, h);
    Overtakes(cfg, s, p, c, h);
    var s1 := Step(cfg, s, c);
    ReadsNext(cfg, s1, p, h, s1.g.rows[0].value);
    assert |Step(cfg, s1, h).clients| == cfg.n by { StepSize(cfg, s1, h); }
    run := start + [c, h];
    TwoMore(cfg, s, c, h);
    RunConcat(cfg, Init(cfg), start, [c, h]);
  }

  lemma StepSize(cfg: Config, s: State, c: nat)
    requires Runnable(cfg, s, c)
    ensures |Step(cfg, s, c).clients| == |s.clients|
  {
    hide Act;
  }

  // So wherever two clients or more can get to two Broadcasts in a row, whatever their roots and
  // values, some run gives a client another answer than its root's value.
  lemma WrongRun(cfg: Config, p: nat) returns (run: seq<nat>)
    requires Sound(cfg) && 2 <= cfg.n && BackToBack(cfg.sched, p) && OpenTo(cfg, p)
    ensures Legal(cfg, Init(cfg), run) && !Agree(cfg, Run(cfg, Init(cfg), run))
  {
    assert Fits(cfg.sched[p], cfg.n);
    var h := cfg.sched[p].root;
    run := Overtaken(cfg, p, if h == 0 then 1 else 0, h);
    var s := Run(cfg, Init(cfg), run);
    hide Sound, Legal, Run, Init;
    if Fitting(cfg, s) {
      assert !RightAnswers(cfg, s.clients[h]);
    }
  }

  // And the number that the client receives is wrong too, unless both roots send 0.
  lemma WrongOnWire(cfg: Config, p: nat) returns (run: seq<nat>, h: nat)
    requires Sound(cfg) && 2 <= cfg.n && BackToBack(cfg.sched, p) && OpenTo(cfg, p)
    requires var a, b := cfg.sched[p - 1], cfg.sched[p];
      Fits(a, cfg.n) && Fits(b, cfg.n) && !(a.values[a.root] == 0 && b.values[b.root] == 0)
    ensures Legal(cfg, Init(cfg), run) && h < cfg.n
    ensures var s, a := Run(cfg, Init(cfg), run), cfg.sched[p - 1];
      && h < |s.clients| && |s.clients[h].got| == p && s.clients[h].got[p - 1].Value?
      && OnWire(s.clients[h].got[p - 1].value) != a.values[a.root]
  {
    var root := cfg.sched[p].root;
    var other := if root == 0 then 1 else 0;
    hide Sound, Legal, Run, Init;
    if cfg.sched[p - 1].values[cfg.sched[p - 1].root] != 0 {
      h := root;
      run := Overtaken(cfg, p, other, h);
    } else {
      h := other;
      run := Overtaken(cfg, p, root, h);
    }
  }

  // ---------------------------------------------------------------- where it cannot happen

  // Before any two Broadcasts in a row something holds the clients up for ever.
  ghost predicate Shielded(cfg: Config) {
    forall p :: 0 <= p < |cfg.sched| && BackToBack(cfg.sched, p) ==> !OpenTo(cfg, p)
  }

  ghost predicate OneSided(cfg: Config, z: nat) {
    z < |cfg.sched| && cfg.sched[z].Session? && !BothParts(cfg.sched[z])
  }

  // Nobody has got past a session without a root or without a worker; and with more clients than
  // threads nobody has got past the first Barrier or session.
  ghost predicate HeldUp(cfg: Config, s: State) {
    && (forall z, c {:trigger OneSided(cfg, z), s.clients[c]} ::
          0 <= z < |cfg.sched| && OneSided(cfg, z) && 0 <= c < |s.clients| ==> s.clients[c].At() <= z)
    && (cfg.n > POOL_SIZE ==> s.g.opId == 0)
  }

  lemma OneSidedStays(cfg: Config, s: State, x: nat)
    requires Sound(cfg) && SyncInv(cfg, s) && SessionInv(cfg, s) && Runnable(cfg, s, x) && Enabled(cfg, s, x)
    requires OneSided(cfg, s.clients[x].At())
    ensures x < |Step(cfg, s, x).clients| && Step(cfg, s, x).clients[x].At() == s.clients[x].At()
  {
    var p := s.clients[x].At();
    assert Placed(cfg, s.g.opId, s.clients[x]);
    if s.clients[x].pc == Collect {
      Collected(cfg, s, x, p);
      hide SyncInv, SessionInv, Sound, PeerOf;
      NoOpposite(cfg.sched[p], x);
    } else {
      hide SyncInv, SessionInv, Sound, PeerOf, Enter, Leave, Via, Mark;
    }
  }

  lemma NoOpposite(call: Call, c: nat)
    requires call.Session? && c < |call.roles| && !BothParts(call)
    ensures forall d :: 0 <= d < |call.roles| ==> !Opposite(call, c, d)
  {
  }

  // Whoever has arrived in the open round occupies a thread.
  lemma ArrivedBusy(cfg: Config, s: State)
    requires SyncInv(cfg, s)
    ensures |Arrived(cfg, s)| <= |BusyClients(s)|
  {
    forall d | d in Arrived(cfg, s) ensures d in BusyClients(s) {
      assert Placed(cfg, s.g.opId, s.clients[d]);
    }
    hide SyncInv;
    Subset(Arrived(cfg, s), BusyClients(s));
  }

  lemma ArriveStays(cfg: Config, s: State, x: nat)
    requires Sound(cfg) && SyncInv(cfg, s) && Runnable(cfg, s, x) && Enabled(cfg, s, x) && cfg.n > POOL_SIZE
    requires s.clients[x].pc == Ready && !cfg.sched[s.clients[x].At()].Broadcast?
    ensures Step(cfg, s, x).g.opId == s.g.opId
  {
    ArrivedBusy(cfg, s);
    assert s.g.ctrs[s.g.opId] + 1 < cfg.n && Arrive(s.g, cfg.n).opId == s.g.opId;
    hide SyncInv, Sound, Arrive, Enabled, Lookup;
  }

  // A round with more members than the pool has threads does not close.
  lemma RoundStays(cfg: Config, s: State, x: nat)
    requires Sound(cfg) && SyncInv(cfg, s) && Runnable(cfg, s, x) && Enabled(cfg, s, x) && cfg.n > POOL_SIZE
    ensures Step(cfg, s, x).g.opId == s.g.opId
  {
    hide SyncInv, Sound, Enabled, Find, Cleanup, PeerOf, Via;
    if s.clients[x].pc == Ready && !cfg.sched[s.clients[x].At()].Broadcast? {
      ArriveStays(cfg, s, x);
    }
  }

  lemma StepHeldUp(cfg: Config, s: State, x: nat)
    requires Sound(cfg) && SyncInv(cfg, s) && SessionInv(cfg, s) && HeldUp(cfg, s) && Runnable(cfg, s, x)
      && Enabled(cfg, s, x)
    ensures HeldUp(cfg, Step(cfg, s, x))
  {
    Moves(cfg, s, x);
    if cfg.n > POOL_SIZE {
      RoundStays(cfg, s, x);
    }
    if OneSided(cfg, s.clients[x].At()) {
      OneSidedStays(cfg, s, x);
    }
    hide SyncInv, SessionInv, Sound, Step, Enabled, OneSided;
  }

  // With the first round still open nobody is past a Barrier or a session.
  lemma FirstRound(cfg: Config, s: State, c: nat, z: nat)
    requires SyncInv(cfg, s) && s.g.opId == 0 && c < cfg.n && z < |cfg.sched| && !cfg.sched[z].Broadcast?
    ensures s.clients[c].At() <= z
  {
    assert Placed(cfg, 0, s.clients[c]);
    if z < s.clients[c].At() {
      SyncsMonotone(cfg.sched, z + 1, s.clients[c].At());
    }
  }

  lemma StopsAt(cfg: Config, s: State, c: nat, z: nat)
    requires SyncInv(cfg, s) && HeldUp(cfg, s) && c < cfg.n && z < |cfg.sched| && !Passable(cfg, z)
    ensures c < |s.clients| && s.clients[c].At() <= z
  {
    SyncSize(cfg, s);
    if cfg.n > POOL_SIZE {
      FirstRound(cfg, s, c, z);
    } else {
      assert OneSided(cfg, z);
    }
  }

  lemma ShieldedTogether(cfg: Config, s: State, c: nat)
    requires SyncInv(cfg, s) && HeldUp(cfg, s) && Shielded(cfg)
    ensures Begins(cfg, s, c) ==> Together(cfg, s, c)
  {
    SyncSize(cfg, s);
    if Begins(cfg, s, c) {
      forall d | 0 <= d < cfg.n ensures !BackToBack(cfg.sched, s.clients[d].At()) {
        var p := s.clients[d].At();
        if BackToBack(cfg.sched, p) {
          var z :| 0 <= z < p && !Passable(cfg, z);
          StopsAt(cfg, s, d, z);
        }
      }
      hide SyncInv, BackToBack;
      KeptTogether(cfg, s, c);
    }
  }

  lemma {:induction false} ShieldedRun(cfg: Config, s: State, run: seq<nat>)
    requires SyncInv(cfg, s) && CastInv(cfg, s) && SessionInv(cfg, s) && OneRow(s) && HeldUp(cfg, s)
    requires Shielded(cfg) && Legal(cfg, s, run)
    ensures Stable(cfg, s, run)
    decreases |run|
  {
    if run != [] {
      assert Sound(cfg);
      hide SyncInv, CastInv, SessionInv, OneRow, HeldUp, Displaces, Sound, Step, Enabled, Runnable, Shielded,
           Together, Begins;
      CanAct(cfg, s, run[0]);
      ShieldedTogether(cfg, s, run[0]);
      NeverDisplaces(cfg, s, run[0]);
      StepKeepsSync(cfg, s, run[0]);
      StepKeepsCast(cfg, s, run[0]);
      StepKeepsSession(cfg, s, run[0]);
      StepKeepsOneRow(cfg, s, run[0]);
      StepHeldUp(cfg, s, run[0]);
      ShieldedRun(cfg, Next(cfg, s, run[0]), run[1..]);
    }
  }

  // A single client never finds another one holding an index.
  lemma {:induction false} SingleRun(cfg: Config, s: State, run: seq<nat>)
    requires SyncInv(cfg, s) && Sound(cfg) && cfg.n == 1
    ensures Stable(cfg, s, run)
    decreases |run|
  {
    if run != [] {
      SyncSize(cfg, s);
      assert !Displaces(cfg, s, run[0]);
      hide SyncInv, Sound, Step, Displaces;
      if Runnable(cfg, s, run[0]) && Enabled(cfg, s, run[0]) {
        StepKeepsSync(cfg, s, run[0]);
      }
      SingleRun(cfg, Next(cfg, s, run[0]), run[1..]);
    }
  }

  lemma ShieldedAgreement(cfg: Config, run: seq<nat>)
    requires Sound(cfg) && (cfg.n == 1 || Shielded(cfg)) && Legal(cfg, Init(cfg), run)
    ensures Stable(cfg, Init(cfg), run) && Agree(cfg, Run(cfg, Init(cfg), run))
  {
    InitAgrees(cfg);
    InitSession(cfg);
    if cfg.n == 1 {
      SingleRun(cfg, Init(cfg), run);
    } else {
      assert OneRow(Init(cfg)) && HeldUp(cfg, Init(cfg));
      ShieldedRun(cfg, Init(cfg), run);
    }
    StableRun(cfg, Init(cfg), run);
  }

  // The number that arrives: in a run without displaced indices, and so with a separated or a
  // shielded schedule or a single client in any run, each completed Broadcast gives each client the
  // number that the root of that call sent, 0 included.
  lemma ArrivesRight(cfg: Config, run: seq<nat>, c: nat, j: nat)
    requires Sound(cfg) && Legal(cfg, Init(cfg), run) && c < cfg.n
    requires Stable(cfg, Init(cfg), run) || Separated(cfg.sched) || cfg.n == 1 || Shielded(cfg)
    ensures var s := Run(cfg, Init(cfg), run);
      && |s.clients| == cfg.n && |s.clients[c].got| <= |cfg.sched|
      && (j < |s.clients[c].got| && cfg.sched[j].Broadcast? ==>
            var call, a := cfg.sched[j], s.clients[c].got[j];
            a.Value? && call.root < |call.values| && OnWire(a.value) == call.values[call.root])
  {
    hide Sound, Legal, Stable, Separated, Shielded, Agree, Run;
    if Separated(cfg.sched) {
      SeparatedAgreement(cfg, run);
    } else if cfg.n == 1 || Shielded(cfg) {
      ShieldedAgreement(cfg, run);
    }
    StableAgreement(cfg, run, c);
    var s := Run(cfg, Init(cfg), run);
    AgreeSize(cfg, s, c);
    if j < |s.clients[c].got| && cfg.sched[j].Broadcast? {
      RightOnWire(cfg, s, c, j);
    }
  }

  lemma AgreeSize(cfg: Config, s: State, c: nat)
    requires Agree(cfg, s) && c < cfg.n
    ensures |s.clients| == cfg.n && |s.clients[c].got| <= |cfg.sched|
  {
  }

  // For any number of clients and any schedule: every run agrees, whatever the order of the steps,
  // exactly if there is a single client or the clients can get to no two Broadcasts in a row.
  lemma AgreementIffShielded(cfg: Config)
    requires Sound(cfg)
    ensures cfg.n == 1 || Shielded(cfg) <==>
      forall run :: Legal(cfg, Init(cfg), run) ==> Agree(cfg, Run(cfg, Init(cfg), run))
  {
    if cfg.n == 1 || Shielded(cfg) {
      forall run | Legal(cfg, Init(cfg), run) ensures Agree(cfg, Run(cfg, Init(cfg), run)) {
        ShieldedAgreement(cfg, run);
      }
    } else {
      var p :| 0 <= p < |cfg.sched| && BackToBack(cfg.sched, p) && OpenTo(cfg, p);
      var run := WrongRun(cfg, p);
    }
  }

  // In particular, with two to ten clients and sessions that have a root and a worker: every run
  // agrees exactly if the schedule has no two Broadcasts in a row.
  lemma AgreementIffSeparated(cfg: Config)
    requires Sound(cfg) && Exchangeable(cfg) && 2 <= cfg.n <= 10
    ensures Separated(cfg.sched) <==> forall run :: Legal(cfg, Init(cfg), run) ==> Agree(cfg, Run(cfg, Init(cfg), run))
  {
    AgreementIffShielded(cfg);
    forall p | 0 <= p < |cfg.sched| ensures OpenTo(cfg, p) {
      AllOpen(cfg, p);
    }
  }

  // The smallest case: two clients, of which client 0 sends 42 twice with no Barrier between. Client
  // 0 itself gets nothing for its first call, which it receives as 0.
  lemma TwiceGoesWrong() returns (cfg: Config, run: seq<nat>)
    ensures cfg == Config(2, [Broadcast(0, [42, 42]), Broadcast(0, [42, 42])])
    ensures Sound(cfg) && Legal(cfg, Init(cfg), run) && !Agree(cfg, Run(cfg, Init(cfg), run))
    ensures var s := Run(cfg, Init(cfg), run);
      |s.clients| == 2 && |s.clients[0].got| == 1 && s.clients[0].got[0] == Value(None) && OnWire(None) != 42
  {
    hide Agree, Legal, Run, Init;
    cfg := Config(2, [Broadcast(0, [42, 42]), Broadcast(0, [42, 42])]);
    assert BackToBack(cfg.sched, 1) && OpenTo(cfg, 1);
    run := Overtaken(cfg, 1, 1, 0);
    NotRight(cfg, Run(cfg, Init(cfg), run));
  }

  lemma NotRight(cfg: Config, s: State)
    requires cfg == Config(2, [Broadcast(0, [42, 42]), Broadcast(0, [42, 42])]) && Sound(cfg)
    requires |s.clients| == 2 && |s.clients[0].got| == 1 && s.clients[0].got[0] == Value(None)
    ensures !Agree(cfg, s)
  {
    if Fitting(cfg, s) {
      assert !RightAnswers(cfg, s.clients[0]);
    }
  }
}
