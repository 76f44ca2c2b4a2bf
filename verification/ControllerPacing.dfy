// A way of scheduling the clients under which they stay together, call by call, in any schedule:
// it shows which calls can be reached at all, back-to-back Broadcasts or not.

module ControllerPacing {
  import opened Wrappers
  import opened ControllerModel
  import opened ControllerSync
  import opened ControllerCasts
  import opened ControllerAgreement
  import opened ControllerSessions
  import opened ControllerProgress

  // Whether the clients can get past call z: a Broadcast lets everyone past; a Barrier or a session
  // needs a thread for each of them, and a session a root and a worker.
  ghost predicate Passable(cfg: Config, z: nat)
    requires z < |cfg.sched|
  {
    cfg.sched[z].Broadcast? || (cfg.n <= 10 && (cfg.sched[z].Session? ==> BothParts(cfg.sched[z])))
  }

  // Nothing before call p holds the clients up.
  ghost predicate OpenTo(cfg: Config, p: nat) {
    p <= |cfg.sched| && forall z :: 0 <= z < p ==> Passable(cfg, z)
  }

  lemma AllOpen(cfg: Config, p: nat)
    requires Sound(cfg) && Exchangeable(cfg) && cfg.n <= 10 && p <= |cfg.sched|
    ensures OpenTo(cfg, p)
  {
    forall z | 0 <= z < p ensures Passable(cfg, z) {
      assert cfg.sched[z].Session? ==> IsSession(cfg, z);
      Parts(cfg, z);
    }
  }

  // ---------------------------------------------------------------- in step

  ghost predicate Good(cfg: Config, s: State) {
    Sound(cfg) && SyncInv(cfg, s) && CastInv(cfg, s) && SessionInv(cfg, s) && OneRow(s)
  }

  // Nobody is in a call that someone else has yet to come to, nobody has begun call p, and nobody
  // waits for a value.
  ghost predicate InStep(cfg: Config, s: State, p: nat) {
    && |s.clients| == cfg.n
    && (forall c :: 0 <= c < cfg.n ==>
          s.clients[c].At() <= p && s.clients[c].pc != Failed && !s.clients[c].pc.RowWait?
          && (s.clients[c].pc != Ready ==> s.clients[c].At() < p))
    && (forall c, d :: 0 <= c < cfg.n && 0 <= d < cfg.n && s.clients[c].pc != Ready ==>
        s.clients[c].At() <= s.clients[d].At())
  }

  // Where client h is held back: before it begins call p - 1, or before it reads the value.
  datatype Hold = Early | Late

  ghost predicate Reserved(s: State, p: nat, h: nat, hold: Hold) {
    && h < |s.clients| && s.clients[h].At() + 1 == p
    && (if hold.Early? then s.clients[h].pc == Ready else s.clients[h].pc.RowRead?)
  }

  // Client h has yet to come to where it is held back, or is there.
  ghost predicate Behind(s: State, p: nat, h: nat, hold: Hold) {
    && h < |s.clients| && s.clients[h].At() < p
    && (hold.Early? && s.clients[h].At() + 1 == p ==> s.clients[h].pc == Ready)
  }

  // Everyone else has come to call p.
  ghost predicate OneLeft(cfg: Config, s: State, p: nat, h: nat, hold: Hold) {
    && |s.clients| == cfg.n && Reserved(s, p, h, hold)
    && forall d :: 0 <= d < cfg.n && d != h ==> s.clients[d].pc == Ready && s.clients[d].At() == p
  }

  // The call that h is held back in is a Broadcast, and others can do without h.
  ghost predicate CanHold(cfg: Config, p: nat, h: nat, hold: Hold) {
    && 0 < p <= |cfg.sched| && h < cfg.n && cfg.sched[p - 1].Broadcast?
    && (hold.Early? ==> h != cfg.sched[p - 1].root)
  }

  // A client begins a call only when nobody is behind, and a Broadcast only as its root or after
  // its root; and h is held back.
  ghost predicate Allowed(cfg: Config, s: State, p: nat, h: nat, hold: Hold, x: nat) {
    && |s.clients| == cfg.n && x < cfg.n
    && !(x == h && Reserved(s, p, h, hold))
    && (s.clients[x].pc == Ready ==>
          s.clients[x].At() < p <= |cfg.sched| && forall d :: 0 <= d < cfg.n ==> s.clients[x].At() <= s.clients[d].At())
    && (Begins(cfg, s, x) ==>
          var root := cfg.sched[s.clients[x].At()].root;
          x == root || (root < cfg.n && s.clients[root].At() <= |cfg.sched|
                        && Asked(cfg, s.clients[x]) < Marked(cfg, s.clients[root])))
  }

  // ---------------------------------------------------------------- an allowed step keeps in step

  lemma Moves(cfg: Config, s: State, x: nat)
    requires SyncInv(cfg, s) && Runnable(cfg, s, x) && Enabled(cfg, s, x)
    ensures var cl, s' := s.clients[x], Step(cfg, s, x);
      && |s'.clients| == cfg.n && (forall d :: 0 <= d < cfg.n && d != x ==> s'.clients[d] == s.clients[d])
      && (if s'.clients[x].pc == Ready then cl.pc != Ready && s'.clients[x].At() == cl.At() + 1
          else s'.clients[x].At() == cl.At())
  {
    if s.clients[x].pc == Ready {
      EnterMoves(cfg, s, x);
    }
    hide SyncInv, Enter, PeerOf, Leave, Via, Mark;
    SyncSize(cfg, s);
  }

  // A Broadcast whose root has posted, or that the root makes, does not wait.
  lemma NoWait(cfg: Config, s: State, x: nat)
    requires CastInv(cfg, s) && Runnable(cfg, s, x) && Begins(cfg, s, x)
    requires var root := cfg.sched[s.clients[x].At()].root;
      x == root || (root < cfg.n && s.clients[root].At() <= |cfg.sched|
          && Asked(cfg, s.clients[x]) < Marked(cfg, s.clients[root]))
    ensures Step(cfg, s, x).clients[x].pc.RowRead?
  {
    var m, call := MarksOf(cfg, s), cfg.sched[s.clients[x].At()];
    JoinClient(cfg, s, x);
    assert m[x] == Asked(cfg, s.clients[x]) && (x == call.root || m[x] < m[RootOf(cfg, m[x])]);
    hide CastInv, Asked, Marked, Join, Step, Complete, RootOf, ValueOf, Casts, TableOk;
    JoinWaits(cfg, s.g, m, x, call.root, call.values[x]);
    JoinIs(cfg, s, x);
  }

  // A Broadcast that waits is one whose root is behind.
  lemma JoinWaits(cfg: Config, g: Shared, m: seq<nat>, c: nat, root: nat, value: nat)
    requires TableOk(cfg, g, m) && c < cfg.n && |m| == cfg.n && m[c] < |Casts(cfg.sched)| && Sound(cfg)
    requires root == RootOf(cfg, m[c]) && (c == root ==> value == ValueOf(cfg, m[c]))
    ensures var pc := Join(g, cfg.n, c, root, value).1;
      (pc.RowRead? || pc.RowWait?) && (pc.RowWait? ==> c != root && m[root] <= m[c])
  {
    hide TableOk, Join, Complete, RootOf, ValueOf, Casts, Sound;
    JoinTable(cfg, g, m, c, root, value);
    var (g', pc) := Join(g, cfg.n, c, root, value);
    if pc.RowWait? {
      NotPosted(cfg, g', m, m[c]);
    }
  }

  lemma NotPosted(cfg: Config, g: Shared, m: seq<nat>, e: nat)
    requires TableOk(cfg, g, m) && e !in g.posted && e < g.created
    ensures |m| == cfg.n && m[RootOf(cfg, e)] <= e
  {
    assert !IsPosted(cfg, g.created, m, e);
  }

  lemma AllowedTogether(cfg: Config, s: State, p: nat, h: nat, hold: Hold, x: nat)
    requires SyncInv(cfg, s) && InStep(cfg, s, p) && Allowed(cfg, s, p, h, hold, x) && Begins(cfg, s, x)
    ensures Together(cfg, s, x)
  {
    forall d | 0 <= d < cfg.n
      ensures s.clients[d].At() <= |cfg.sched| && Asked(cfg, s.clients[x]) <= Asked(cfg, s.clients[d])
    {
      assert Placed(cfg, s.g.opId, s.clients[d]);
      SyncsMonotone(cfg.sched, s.clients[x].At(), s.clients[d].At());
    }
  }

  lemma AllowedSucceeds(cfg: Config, s: State, p: nat, h: nat, hold: Hold, x: nat)
    requires Good(cfg, s) && InStep(cfg, s, p) && OpenTo(cfg, p) && Allowed(cfg, s, p, h, hold, x)
    requires Runnable(cfg, s, x) && Enabled(cfg, s, x)
    ensures Step(cfg, s, x).clients[x].pc != Failed && !Step(cfg, s, x).clients[x].pc.RowWait?
  {
    assert s.clients[x].At() < p && Passable(cfg, s.clients[x].At());
    assert Placed(cfg, s.g.opId, s.clients[x]);
    hide SyncInv, CastInv, SessionInv, OneRow, Sound, Opened, Find, Cleanup, Arrive, Register, PeerOf, Leave, Via,
         BothParts;
    if Begins(cfg, s, x) {
      NoWait(cfg, s, x);
    } else if cfg.sched[s.clients[x].At()].Broadcast? {
      CastSucceeds(cfg, s, x);
    } else if s.clients[x].pc == Collect {
      CollectSucceeds(cfg, s, x);
    } else {
      SyncSucceeds(cfg, s, x);
    }
  }

  lemma StepInStep(cfg: Config, s: State, p: nat, h: nat, hold: Hold, x: nat)
    requires Good(cfg, s) && InStep(cfg, s, p) && OpenTo(cfg, p) && Allowed(cfg, s, p, h, hold, x)
    requires Runnable(cfg, s, x) && Enabled(cfg, s, x)
    ensures InStep(cfg, Step(cfg, s, x), p)
  {
    AllowedSucceeds(cfg, s, p, h, hold, x);
    assert SyncInv(cfg, s);
    Moves(cfg, s, x);
    hide Good, SyncInv, Step, OpenTo, Enabled, Runnable, Asked, Marked;
  }

  lemma StepGood(cfg: Config, s: State, p: nat, h: nat, hold: Hold, x: nat)
    requires Good(cfg, s) && InStep(cfg, s, p) && Allowed(cfg, s, p, h, hold, x)
    requires Runnable(cfg, s, x) && Enabled(cfg, s, x)
    ensures Good(cfg, Step(cfg, s, x)) && !Displaces(cfg, s, x)
  {
    hide SyncInv, CastInv, SessionInv, OneRow, Sound, Step, Enabled, Runnable, Displaces, Together, Begins, InStep,
         Allowed;
    if Begins(cfg, s, x) {
      AllowedTogether(cfg, s, p, h, hold, x);
    }
    NeverDisplaces(cfg, s, x);
    StepKeepsSync(cfg, s, x);
    StepKeepsCast(cfg, s, x);
    StepKeepsSession(cfg, s, x);
    StepKeepsOneRow(cfg, s, x);
  }

  // Client h does not get past where it is held back.
  lemma StaysBehind(cfg: Config, s: State, p: nat, h: nat, hold: Hold, x: nat)
    requires SyncInv(cfg, s) && Runnable(cfg, s, x) && Enabled(cfg, s, x)
    requires CanHold(cfg, p, h, hold) && Behind(s, p, h, hold) && !(x == h && Reserved(s, p, h, hold))
    ensures Behind(Step(cfg, s, x), p, h, hold)
  {
    StepGot(cfg, s, x);
    Moves(cfg, s, x);
    hide SyncInv, Step, Enabled;
  }

  // ---------------------------------------------------------------- someone is always allowed

  ghost predicate Free(cfg: Config, s: State, p: nat, h: nat, hold: Hold, d: nat) {
    d < |s.clients| && s.clients[d].pc != Ready && Enabled(cfg, s, d) && !(d == h && Reserved(s, p, h, hold))
  }

  // If no client inside a call can step, some client that is behind nobody is between two calls.
  lemma SomeoneReady(cfg: Config, s: State, p: nat, h: nat, hold: Hold) returns (y: nat)
    requires Good(cfg, s) && InStep(cfg, s, p) && OpenTo(cfg, p)
    requires CanHold(cfg, p, h, hold) && Behind(s, p, h, hold) && !OneLeft(cfg, s, p, h, hold)
    requires forall d :: 0 <= d < cfg.n ==> !Free(cfg, s, p, h, hold, d)
    ensures y < cfg.n && s.clients[y].pc == Ready && s.clients[y].At() < p && !(y == h && Reserved(s, p, h, hold))
    ensures forall d :: 0 <= d < cfg.n ==> s.clients[y].At() <= s.clients[d].At()
  {
    var c := MostBehind(s.clients);
    y := c;
    assert Placed(cfg, s.g.opId, s.clients[c]);
    if s.clients[c].pc.Wait? {
      assert !Free(cfg, s, p, h, hold, c);
      y := Arriver(cfg, s, c);
    } else if s.clients[c].pc != Ready || (c == h && Reserved(s, p, h, hold)) {
      assert !Free(cfg, s, p, h, hold, c);
      assert c == h && Reserved(s, p, h, hold);
      y :| 0 <= y < cfg.n && y != h && !(s.clients[y].pc == Ready && s.clients[y].At() == p);
      assert !Free(cfg, s, p, h, hold, y) && Placed(cfg, s.g.opId, s.clients[y]);
    }
  }

  lemma BusyReader(cfg: Config, s: State, p: nat, h: nat, hold: Hold)
    requires Good(cfg, s) && InStep(cfg, s, p) && OpenTo(cfg, p) && cfg.n > POOL_SIZE
    requires forall d :: 0 <= d < cfg.n ==> !Free(cfg, s, p, h, hold, d)
    ensures |BusyClients(s)| < POOL_SIZE
  {
    forall d | d in BusyClients(s) ensures d == h {
      assert !Free(cfg, s, p, h, hold, d) && Placed(cfg, s.g.opId, s.clients[d]);
      assert Passable(cfg, s.clients[d].At());
    }
    assert BusyClients(s) <= {h};
    Subset(BusyClients(s), {h});
  }

  // The root first; the others when it has posted.
  lemma RootFirst(cfg: Config, s: State, p: nat, h: nat, hold: Hold, y: nat) returns (x: nat)
    requires Good(cfg, s) && InStep(cfg, s, p) && p <= |cfg.sched| && y < cfg.n
    requires s.clients[y].pc == Ready && s.clients[y].At() < p && !(y == h && Reserved(s, p, h, hold))
    requires CanHold(cfg, p, h, hold)
    requires forall d :: 0 <= d < cfg.n ==> s.clients[y].At() <= s.clients[d].At()
    ensures x < cfg.n && s.clients[x].pc == Ready && Allowed(cfg, s, p, h, hold, x)
  {
    var q := s.clients[y].At();
    x := y;
    if cfg.sched[q].Broadcast? {
      assert Fits(cfg.sched[q], cfg.n);
      var root := cfg.sched[q].root;
      if s.clients[root].pc == Ready && s.clients[root].At() == q {
        x := root;
      } else {
        assert Placed(cfg, s.g.opId, s.clients[root]);
        if s.clients[root].At() > q {
          SyncsMonotone(cfg.sched, q + 1, s.clients[root].At());
        }
      }
    }
    hide Good, SyncInv, CastInv, Sound;
  }

  lemma FreeAllowed(cfg: Config, s: State, p: nat, h: nat, hold: Hold, d: nat)
    requires InStep(cfg, s, p) && d < cfg.n && Free(cfg, s, p, h, hold, d)
    ensures Enabled(cfg, s, d) && Allowed(cfg, s, p, h, hold, d)
  {
    hide Enabled;
  }

  lemma NextMover(cfg: Config, s: State, p: nat, h: nat, hold: Hold) returns (x: nat)
    requires Good(cfg, s) && InStep(cfg, s, p) && OpenTo(cfg, p)
    requires CanHold(cfg, p, h, hold) && Behind(s, p, h, hold) && !OneLeft(cfg, s, p, h, hold)
    ensures Enabled(cfg, s, x) && Allowed(cfg, s, p, h, hold, x)
  {
    hide Good, OpenTo, OneLeft, BusyClients, Begins, Reserved;
    if d :| 0 <= d < cfg.n && Free(cfg, s, p, h, hold, d) {
      x := d;
      FreeAllowed(cfg, s, p, h, hold, d);
    } else {
      var y := SomeoneReady(cfg, s, p, h, hold);
      assert p <= |cfg.sched| by { OpenBound(cfg, p); }
      x := RootFirst(cfg, s, p, h, hold, y);
      if cfg.n <= POOL_SIZE {
        ThreadFree(cfg, s, x);
      } else {
        BusyReader(cfg, s, p, h, hold);
      }
    }
  }

  lemma OpenBound(cfg: Config, p: nat)
    requires OpenTo(cfg, p)
    ensures p <= |cfg.sched|
  {
  }

  // ---------------------------------------------------------------- to the last read of a call

  lemma GoodParts(cfg: Config, s: State)
    requires Good(cfg, s)
    ensures Sound(cfg) && SyncInv(cfg, s) && CastInv(cfg, s) && OneRow(s)
  {
  }

  // If nothing before it holds the clients up, any Broadcast can be reached, any client can be the
  // last to read its value, and any client but the root the last to begin it, in a run that never
  // deletes a row under an index.
  lemma {:induction false} PacedTo(cfg: Config, s: State, p: nat, h: nat, hold: Hold) returns (run: seq<nat>)
    requires Good(cfg, s) && InStep(cfg, s, p) && OpenTo(cfg, p)
    requires CanHold(cfg, p, h, hold) && Behind(s, p, h, hold) && Total(s.clients) <= 4 * |cfg.sched| * cfg.n
    ensures Legal(cfg, s, run) && Stable(cfg, s, run)
    ensures var e := Run(cfg, s, run); Good(cfg, e) && OneLeft(cfg, e, p, h, hold)
    decreases 4 * |cfg.sched| * cfg.n - Total(s.clients)
  {
    hide Good, InStep, OpenTo, OneLeft, Enabled, Allowed, Step, Runnable, Displaces, Total, Sound, SyncInv, CastInv,
         OneRow;
    run := [];
    if !OneLeft(cfg, s, p, h, hold) {
      var x := NextMover(cfg, s, p, h, hold);
      GoodParts(cfg, s);
      OpenBound(cfg, p);
      CanAct(cfg, s, x);
      StepInStep(cfg, s, p, h, hold, x);
      StepGood(cfg, s, p, h, hold, x);
      assert !(x == h && Reserved(s, p, h, hold)) by { NotReserved(cfg, s, p, h, hold, x); }
      StaysBehind(cfg, s, p, h, hold, x);
      StepAdvances(cfg, s, x);
      GoodParts(cfg, Step(cfg, s, x));
      TotalAtMost(cfg, Step(cfg, s, x));
      var more := PacedTo(cfg, Step(cfg, s, x), p, h, hold);
      run := [x] + more;
      assert run[1..] == more;
    }
  }

  lemma NotReserved(cfg: Config, s: State, p: nat, h: nat, hold: Hold, x: nat)
    requires Allowed(cfg, s, p, h, hold, x)
    ensures !(x == h && Reserved(s, p, h, hold))
  {
  }

  lemma PacedFromStart(cfg: Config, p: nat, h: nat, hold: Hold) returns (run: seq<nat>)
    requires Sound(cfg) && OpenTo(cfg, p) && CanHold(cfg, p, h, hold)
    ensures Legal(cfg, Init(cfg), run) && Stable(cfg, Init(cfg), run)
    ensures var e := Run(cfg, Init(cfg), run); Good(cfg, e) && OneLeft(cfg, e, p, h, hold)
  {
    var s := Init(cfg);
    InitSane(cfg);
    assert OneRow(s) && InStep(cfg, s, p);
    TotalAtMost(cfg, s);
    run := PacedTo(cfg, s, p, h, hold);
  }
}
