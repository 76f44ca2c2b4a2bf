// The collectives always come to an end, provided the thread pool can hold all the clients.

module ControllerProgress {
  import opened Wrappers
  import opened ControllerModel
  import opened ControllerSync
  import opened ControllerCasts
  import opened ControllerAgreement
  import opened ControllerSessions

  // ---------------------------------------------------------------- runs are bounded

  // How far a client has come: no call takes more than four steps.
  ghost function Advance(cl: Client): nat {
    4 * cl.At() + match cl.pc
    case Ready => 0
    case Check(_) => 1
    case RowWait(_, _) => 1
    case Wait(_) => 2
    case RowRead(_) => 2
    case Collect => 3
    case Failed => 4
  }

  ghost function Total(clients: seq<Client>): nat {
    if clients == [] then 0 else Advance(clients[0]) + Total(clients[1..])
  }

  lemma {:induction false} TotalUpdate(clients: seq<Client>, c: nat, cl: Client)
    requires c < |clients|
    ensures Total(clients[c := cl]) == Total(clients) - Advance(clients[c]) + Advance(cl)
  {
    hide Advance;
    if c == 0 {
      assert clients[c := cl][1..] == clients[1..];
    } else {
      assert clients[c := cl][1..] == clients[1..][c - 1 := cl];
      TotalUpdate(clients[1..], c - 1, cl);
    }
  }

  lemma {:induction false} TotalBound(cfg: Config, clients: seq<Client>)
    requires forall c :: 0 <= c < |clients| ==> Advance(clients[c]) <= 4 * |cfg.sched|
    ensures Total(clients) <= 4 * |cfg.sched| * |clients|
  {
    hide Advance;
    if clients != [] {
      TotalBound(cfg, clients[1..]);
    }
  }

  lemma StepAdvances(cfg: Config, s: State, c: nat)
    requires Runnable(cfg, s, c) && Enabled(cfg, s, c)
    ensures Total(Step(cfg, s, c).clients) > Total(s.clients)
  {
    hide Opened, Find, Cleanup, PeerOf, Register, Arrive, Leave, Mark, Post, Via, Total;
    TotalUpdate(s.clients, c, Step(cfg, s, c).clients[c]);
  }

  lemma {:induction false} RunAdvances(cfg: Config, s: State, run: seq<nat>)
    requires Sound(cfg) && SyncInv(cfg, s) && Legal(cfg, s, run)
    ensures Total(Run(cfg, s, run).clients) >= Total(s.clients) + |run|
    ensures SyncInv(cfg, Run(cfg, s, run))
    decreases |run|
  {
    if run != [] {
      hide SyncInv, Sound, Step, Enabled, Runnable, Total;
      CanAct(cfg, s, run[0]);
      StepKeepsSync(cfg, s, run[0]);
      StepAdvances(cfg, s, run[0]);
      RunAdvances(cfg, Next(cfg, s, run[0]), run[1..]);
    }
  }

  lemma {:induction false} TotalOfReady(clients: seq<Client>)
    requires forall c :: 0 <= c < |clients| ==> clients[c] == Client(Ready, [])
    ensures Total(clients) == 0
  {
    if clients != [] {
      TotalOfReady(clients[1..]);
    }
  }

  lemma TotalAtMost(cfg: Config, s: State)
    requires SyncInv(cfg, s)
    ensures Total(s.clients) <= 4 * |cfg.sched| * cfg.n
  {
    forall c | 0 <= c < |s.clients| ensures Advance(s.clients[c]) <= 4 * |cfg.sched| {
      assert Placed(cfg, s.g.opId, s.clients[c]);
    }
    hide Advance, SyncInv;
    assert |s.clients| == cfg.n by { SyncSize(cfg, s); }
    TotalBound(cfg, s.clients);
  }

  // No run takes more than four steps for each call of each client.
  lemma RunBound(cfg: Config, run: seq<nat>)
    requires Sound(cfg) && Legal(cfg, Init(cfg), run)
    ensures |run| <= 4 * |cfg.sched| * cfg.n
  {
    InitSync(cfg);
    RunAdvances(cfg, Init(cfg), run);
    TotalAtMost(cfg, Run(cfg, Init(cfg), run));
  }

  // ---------------------------------------------------------------- nobody fails

  // Every session has a root and a worker.
  ghost predicate Exchangeable(cfg: Config) {
    forall p :: 0 <= p < |cfg.sched| && IsSession(cfg, p) ==> BothParts(cfg.sched[p])
  }

  ghost predicate BothParts(call: Call)
    requires call.Session?
  {
    (exists c :: 0 <= c < |call.roles| && call.roles[c] == 1) && exists c :: 0 <= c < |call.roles| && call.roles[c] != 1
  }

  ghost predicate Healthy(s: State) {
    forall c :: 0 <= c < |s.clients| ==> s.clients[c].pc != Failed
  }

  lemma SyncSucceeds(cfg: Config, s: State, c: nat)
    requires Sound(cfg) && SyncInv(cfg, s) && Runnable(cfg, s, c) && Enabled(cfg, s, c)
    requires !cfg.sched[s.clients[c].At()].Broadcast? && s.clients[c].pc != Collect
    ensures Step(cfg, s, c).clients[c].pc != Failed
  {
    assert Placed(cfg, s.g.opId, s.clients[c]);
    match s.clients[c].pc
    case Check(r) => RoundIsKeyed(cfg, s, c, r); hide SyncInv;
    case Wait(r) => RoundIsKeyed(cfg, s, c, r); hide SyncInv;
    case _ => hide Arrive, Register;
  }

  lemma CollectSucceeds(cfg: Config, s: State, c: nat)
    requires Sound(cfg) && SyncInv(cfg, s) && SessionInv(cfg, s) && Runnable(cfg, s, c)
    requires s.clients[c].pc == Collect
    requires cfg.sched[s.clients[c].At()].Session? ==> BothParts(cfg.sched[s.clients[c].At()])
    ensures Step(cfg, s, c).clients[c].pc != Failed
  {
    var p := s.clients[c].At();
    assert Placed(cfg, s.g.opId, s.clients[c]);
    assert IsSession(cfg, p);
    Collected(cfg, s, c, p);
    var call := cfg.sched[p];
    assert BothParts(call);
    var x :| 0 <= x < |call.roles| && call.roles[x] == 1;
    var y :| 0 <= y < |call.roles| && call.roles[y] != 1;
    assert Opposite(call, c, x) || Opposite(call, c, y);
    hide SyncInv, SessionInv, Sound, PeerOf;
  }

  lemma CastSucceeds(cfg: Config, s: State, c: nat)
    requires SyncInv(cfg, s) && CastInv(cfg, s) && Runnable(cfg, s, c) && Enabled(cfg, s, c)
    requires cfg.sched[s.clients[c].At()].Broadcast?
    ensures Step(cfg, s, c).clients[c].pc != Failed
  {
    assert Placed(cfg, s.g.opId, s.clients[c]) && HolderOk(cfg, s.g, c, s.clients[c]);
    hide SyncInv;
    match s.clients[c].pc
    case Ready =>
      JoinSucceeds(cfg, s, c);
    case RowWait(idx, _) =>
      RowMark(cfg, s.g, MarksOf(cfg, s), idx, c);
      hide CastInv;
    case _ => hide CastInv;
  }

  lemma JoinSucceeds(cfg: Config, s: State, c: nat)
    requires CastInv(cfg, s) && Runnable(cfg, s, c)
    requires s.clients[c].pc == Ready && cfg.sched[s.clients[c].At()].Broadcast?
    ensures Step(cfg, s, c).clients[c].pc != Failed
  {
    var m, call := MarksOf(cfg, s), cfg.sched[s.clients[c].At()];
    JoinClient(cfg, s, c);
    hide TableOk, Join, Step, Complete, RootOf, ValueOf, Casts, Sound;
    JoinTable(cfg, s.g, m, c, call.root, call.values[c]);
    JoinIs(cfg, s, c);
  }

  lemma Parts(cfg: Config, p: nat)
    requires Exchangeable(cfg)
    ensures p < |cfg.sched| && IsSession(cfg, p) ==> BothParts(cfg.sched[p])
  {
  }

  lemma StepHealthy(cfg: Config, s: State, c: nat)
    requires SyncInv(cfg, s) && CastInv(cfg, s) && SessionInv(cfg, s) && Exchangeable(cfg) && Healthy(s)
    requires Runnable(cfg, s, c) && Enabled(cfg, s, c)
    ensures Healthy(Step(cfg, s, c))
  {
    assert Sound(cfg);
    StepMade(cfg, s, c, 0);
    SyncSize(cfg, s);
    hide SyncInv, CastInv, SessionInv, Sound, Exchangeable, Step, Enabled, Made;
    if cfg.sched[s.clients[c].At()].Broadcast? {
      CastSucceeds(cfg, s, c);
    } else if s.clients[c].pc == Collect {
      assert cfg.sched[s.clients[c].At()].Session? ==> IsSession(cfg, s.clients[c].At());
      Parts(cfg, s.clients[c].At());
      CollectSucceeds(cfg, s, c);
    } else {
      SyncSucceeds(cfg, s, c);
    }
  }

  // Everything that holds along a run in which no row is deleted under an index.
  ghost predicate Sane(cfg: Config, s: State) {
    SyncInv(cfg, s) && CastInv(cfg, s) && SessionInv(cfg, s) && Agree(cfg, s) && Healthy(s)
  }

  lemma InitSane(cfg: Config)
    requires Sound(cfg)
    ensures Sane(cfg, Init(cfg))
  {
    InitAgrees(cfg);
    InitSession(cfg);
  }

  lemma StepSane(cfg: Config, s: State, c: nat)
    requires Sane(cfg, s) && Exchangeable(cfg) && Enabled(cfg, s, c) && !Displaces(cfg, s, c)
    ensures Runnable(cfg, s, c) && Sane(cfg, Step(cfg, s, c))
  {
    assert Sound(cfg);
    hide SyncInv, CastInv, SessionInv, Agree, Healthy, Sound, Exchangeable, Step, Enabled, Runnable, Displaces;
    CanAct(cfg, s, c);
    StepKeepsSync(cfg, s, c);
    StepKeepsCast(cfg, s, c);
    StepKeepsSession(cfg, s, c);
    StepAgrees(cfg, s, c);
    StepHealthy(cfg, s, c);
  }

  lemma {:induction false} RunSane(cfg: Config, s: State, run: seq<nat>)
    requires Sane(cfg, s) && Exchangeable(cfg) && Legal(cfg, s, run) && Stable(cfg, s, run)
    ensures Sane(cfg, Run(cfg, s, run))
    decreases |run|
  {
    if run != [] {
      hide Sane, Exchangeable, Step, Enabled, Runnable, Displaces;
      StepSane(cfg, s, run[0]);
      RunSane(cfg, Next(cfg, s, run[0]), run[1..]);
    }
  }

  // ---------------------------------------------------------------- nobody is stuck

  ghost predicate AllDone(cfg: Config, s: State) {
    forall c :: 0 <= c < |s.clients| ==>
        s.clients[c] == Client(Ready, s.clients[c].got) && s.clients[c].At() == |cfg.sched|
  }

  // A client that is behind nobody.
  lemma {:induction false} MostBehind(clients: seq<Client>) returns (c: nat)
    requires clients != []
    ensures c < |clients| && forall d :: 0 <= d < |clients| ==> clients[c].At() <= clients[d].At()
  {
    var k := |clients| - 1;
    c := k;
    if k > 0 {
      var b := MostBehind(clients[..k]);
      if clients[b].At() <= clients[k].At() {
        c := b;
      }
      forall d | 0 <= d < |clients| ensures clients[c].At() <= clients[d].At() {
        if d < k {
          assert clients[d] == clients[..k][d] && clients[b] == clients[..k][b];
        }
      }
    }
  }

  // There is a thread for a client that is ready.
  lemma ThreadFree(cfg: Config, s: State, c: nat)
    requires c < |s.clients| <= POOL_SIZE && s.clients[c].pc == Ready && s.clients[c].At() < |cfg.sched|
    ensures Enabled(cfg, s, c)
  {
    var all := Clients(|s.clients|);
    assert BusyClients(s) <= all - {c};
    Subset(BusyClients(s), all - {c});
  }

  // A client in an open round waits for one that has yet to arrive, and that can.
  lemma Arriver(cfg: Config, s: State, c: nat) returns (x: nat)
    requires SyncInv(cfg, s) && c < cfg.n && s.clients[c].pc.Wait? && s.clients[c].pc.round !in s.g.fired
    requires forall d :: 0 <= d < cfg.n ==> s.clients[c].At() <= s.clients[d].At()
    ensures x < cfg.n && s.clients[x].pc == Ready && s.clients[x].At() == s.clients[c].At() < |cfg.sched|
  {
    var r := s.clients[c].pc.round;
    assert Placed(cfg, s.g.opId, s.clients[c]);
    RoundIsKeyed(cfg, s, c, r);
    assert exists x :: 0 <= x < cfg.n && x !in Arrived(cfg, s) by {
      if forall x :: 0 <= x < cfg.n ==> x in Arrived(cfg, s) {
        assert Clients(cfg.n) <= Arrived(cfg, s);
        Subset(Clients(cfg.n), Arrived(cfg, s));
        assert false;
      }
    }
    x :| 0 <= x < cfg.n && x !in Arrived(cfg, s);
    assert Placed(cfg, s.g.opId, s.clients[x]);
    if s.clients[x].At() > s.clients[c].At() {
      SyncsMonotone(cfg.sched, s.clients[c].At() + 1, s.clients[x].At());
    }
  }

  // A client that waits for a value waits for the root, which has yet to make the call, and can.
  lemma Poster(cfg: Config, s: State, c: nat) returns (x: nat)
    requires SyncInv(cfg, s) && CastInv(cfg, s) && Healthy(s)
    requires c < cfg.n && s.clients[c].pc.RowWait? && s.clients[c].pc.event !in s.g.posted
    requires forall d :: 0 <= d < cfg.n ==> s.clients[c].At() <= s.clients[d].At()
    ensures x < cfg.n && s.clients[x].pc == Ready && s.clients[x].At() == s.clients[c].At() < |cfg.sched|
  {
    var e := s.clients[c].pc.event;
    x := RootOf(cfg, e);
    assert Placed(cfg, s.g.opId, s.clients[c]) && HolderOk(cfg, s.g, c, s.clients[c]);
    assert Placed(cfg, s.g.opId, s.clients[x]) && HolderOk(cfg, s.g, x, s.clients[x]);
    assert !IsPosted(cfg, s.g.created, MarksOf(cfg, s), e);
    hide SyncInv, Sound, RootOf, RowsOk, PostsOk;
    assert MarksOf(cfg, s)[x] <= e;
    assert s.clients[x].At() == s.clients[c].At();
  }

  // Whatever blocks, some client can move: the one that is behind, or the one it waits for.
  lemma SomeoneMoves(cfg: Config, s: State) returns (x: nat)
    requires SyncInv(cfg, s) && CastInv(cfg, s) && Healthy(s) && cfg.n <= POOL_SIZE && !AllDone(cfg, s)
    ensures Enabled(cfg, s, x)
  {
    assert |s.clients| == cfg.n;
    var c := MostBehind(s.clients);
    assert Placed(cfg, s.g.opId, s.clients[c]);
    if forall d :: 0 <= d < cfg.n ==> s.clients[d].At() >= |cfg.sched| {
      Stragglers(cfg, s);
      assert false;
    }
    x := c;
    hide AllDone, BusyClients, TableOk;
    match s.clients[c].pc
    case Ready => ThreadFree(cfg, s, c);
    case Wait(r) =>
      if r !in s.g.fired {
        x := Arriver(cfg, s, c);
        ThreadFree(cfg, s, x);
      }
    case RowWait(_, e) =>
      if e !in s.g.posted {
        x := Poster(cfg, s, c);
        ThreadFree(cfg, s, x);
      }
    case _ =>
  }

  lemma Stragglers(cfg: Config, s: State)
    requires SyncInv(cfg, s) && forall d :: 0 <= d < cfg.n ==> s.clients[d].At() >= |cfg.sched|
    ensures AllDone(cfg, s)
  {
    forall c | 0 <= c < |s.clients|
      ensures s.clients[c] == Client(Ready, s.clients[c].got) && s.clients[c].At() == |cfg.sched|
    {
      assert Placed(cfg, s.g.opId, s.clients[c]);
    }
  }

  // No deadlock: in every state that a stable run reaches, someone can take a step, unless
  // everyone has made all the calls. In a separated schedule every run is stable.
  lemma NeverStuck(cfg: Config, run: seq<nat>) returns (x: nat)
    requires Sound(cfg) && Exchangeable(cfg) && cfg.n <= 10
    requires Legal(cfg, Init(cfg), run) && Stable(cfg, Init(cfg), run)
    ensures AllDone(cfg, Run(cfg, Init(cfg), run)) || Enabled(cfg, Run(cfg, Init(cfg), run), x)
  {
    hide SyncInv, CastInv, SessionInv, Agree, Healthy, Exchangeable, Enabled, AllDone, Run, Legal, Stable;
    InitSane(cfg);
    RunSane(cfg, Init(cfg), run);
    var s := Run(cfg, Init(cfg), run);
    x := 0;
    if !AllDone(cfg, s) {
      x := SomeoneMoves(cfg, s);
    }
  }

  // ---------------------------------------------------------------- every run can be completed

  lemma {:induction false} Extend(cfg: Config, s: State) returns (rest: seq<nat>)
    requires Sane(cfg, s) && OneRow(s) && Separated(cfg.sched) && Exchangeable(cfg) && cfg.n <= POOL_SIZE
    requires Total(s.clients) <= 4 * |cfg.sched| * cfg.n
    ensures Legal(cfg, s, rest) && AllDone(cfg, Run(cfg, s, rest))
    decreases 4 * |cfg.sched| * cfg.n - Total(s.clients)
  {
    rest := [];
    if !AllDone(cfg, s) {
      hide SyncInv, CastInv, SessionInv, Agree, Healthy, Exchangeable, Enabled, AllDone, OneRow, Separated, Step,
           Total, Runnable, Displaces, Together, Begins;
      var x := SomeoneMoves(cfg, s);
      assert Sound(cfg) by { Soundness(cfg, s); }
      CanAct(cfg, s, x);
      SeparatedTogether(cfg, s, x);
      NeverDisplaces(cfg, s, x);
      StepSane(cfg, s, x);
      StepKeepsOneRow(cfg, s, x);
      StepAdvances(cfg, s, x);
      TotalAtMost(cfg, Step(cfg, s, x));
      var more := Extend(cfg, Step(cfg, s, x));
      rest := [x] + more;
      assert rest[1..] == more;
    }
  }

  lemma Soundness(cfg: Config, s: State)
    requires CastInv(cfg, s)
    ensures Sound(cfg)
  {
  }

  // In a separated schedule, with a thread for every client, every run can be completed, and then
  // every Broadcast of every client has returned its root's value.
  lemma Completes(cfg: Config, run: seq<nat>) returns (rest: seq<nat>)
    requires Sound(cfg) && Separated(cfg.sched) && Exchangeable(cfg) && cfg.n <= 10
    requires Legal(cfg, Init(cfg), run)
    ensures Legal(cfg, Init(cfg), run + rest) && |run + rest| <= 4 * |cfg.sched| * cfg.n
    ensures var e := Run(cfg, Init(cfg), run + rest); AllDone(cfg, e) && Agree(cfg, e)
  {
    hide SyncInv, CastInv, SessionInv, Agree, Healthy, Exchangeable, Enabled, AllDone, OneRow, Separated, Total,
         Legal, Run, Sound;
    InitSane(cfg);
    SeparatedAgreement(cfg, run);
    RunSane(cfg, Init(cfg), run);
    var s := Run(cfg, Init(cfg), run);
    TotalAtMost(cfg, s);
    rest := Extend(cfg, s);
    RunConcat(cfg, Init(cfg), run, rest);
    RunBound(cfg, run + rest);
    SeparatedAgreement(cfg, run + rest);
  }
}
