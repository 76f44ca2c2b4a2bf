// RdmaSession over whole runs: who ends up with whose endpoint.

module ControllerSessions {
  import opened Wrappers
  import opened ControllerModel
  import opened ControllerSync

  // The client has made call p of the schedule (it may still be in it).
  ghost predicate Made(cl: Client, p: nat) {
    cl.At() > p || (cl.At() == p && cl.pc != Ready)
  }

  // The clients that play the other part than c in session call p.
  ghost predicate Opposite(call: Call, c: nat, d: nat)
    requires call.Session? && c < |call.roles| && d < |call.roles|
  {
    (call.roles[c] == 1) != (call.roles[d] == 1)
  }

  ghost predicate IsSession(cfg: Config, p: nat) {
    p < |cfg.sched| && cfg.sched[p].Session? && Fits(cfg.sched[p], cfg.n)
  }

  // The entry of a session: the endpoint of a root that has registered, and the endpoints of the
  // workers that have, in the order in which they did.
  ghost predicate EntryOk(cfg: Config, s: State, p: nat)
    requires IsSession(cfg, p) && |s.clients| == cfg.n
  {
    var call := cfg.sched[p];
    var e := Lookup(s.g, call.sid);
    && (forall c :: 0 <= c < cfg.n && Made(s.clients[c], p) ==>
          call.sid in s.g.sessions && if call.roles[c] == 1 then e.root.Some? else c in e.workers && c in e.order)
    && (e.root.Some? ==>
        exists c :: 0 <= c < cfg.n && call.roles[c] == 1 && Made(s.clients[c], p) && e.root == Some(call.ends[c]))
    && (forall c :: c in e.order ==> c in e.workers)
    && (forall c :: c in e.workers ==>
          c < cfg.n && call.roles[c] != 1 && Made(s.clients[c], p) && e.workers[c] == call.ends[c])
  }

  ghost predicate SessionInv(cfg: Config, s: State) {
    && |s.clients| == cfg.n
    && forall p :: 0 <= p < |cfg.sched| && IsSession(cfg, p) ==> EntryOk(cfg, s, p)
  }

  // A session answer is what the entry of the session says.
  ghost predicate Answered(cfg: Config, s: State, c: nat, p: nat)
    requires IsSession(cfg, p) && c < cfg.n == |s.clients|
  {
    p < |s.clients[c].got| ==>
      var call := cfg.sched[p];
      PeerOf(s.g, call.sid, call.roles[c]).Some?
          && s.clients[c].got[p] == Peer(PeerOf(s.g, call.sid, call.roles[c]).value)
  }

  ghost predicate AllAnswered(cfg: Config, s: State)
    requires |s.clients| == cfg.n
  {
    forall c, p {:trigger Answered(cfg, s, c, p)} :: 0 <= c < cfg.n && 0 <= p < |cfg.sched| && IsSession(cfg, p) ==>
        Answered(cfg, s, c, p)
  }

  // ---------------------------------------------------------------- steps

  // The call registers client c in session call p.
  ghost predicate Registers(cfg: Config, s: State, c: nat, p: nat) {
    Runnable(cfg, s, c) && s.clients[c].pc == Ready && s.clients[c].At() == p && cfg.sched[p].Session?
  }

  lemma StepMade(cfg: Config, s: State, c: nat, p: nat)
    requires SyncInv(cfg, s) && Runnable(cfg, s, c) && Enabled(cfg, s, c)
    ensures var s' := Step(cfg, s, c);
      && |s'.clients| == cfg.n
      && (forall d :: 0 <= d < cfg.n && d != c ==> s'.clients[d] == s.clients[d])
      && (Made(s'.clients[c], p) <==> Made(s.clients[c], p) || (s.clients[c].pc == Ready && s.clients[c].At() == p))
  {
    hide AllPlaced, OpenRound, Ledger, Enter, PeerOf, Leave, Via, Mark, Sound;
    if s.clients[c].pc == Ready {
      EnterMoves(cfg, s, c);
    }
  }

  lemma EnterMoves(cfg: Config, s: State, c: nat)
    requires SyncInv(cfg, s) && Runnable(cfg, s, c) && s.clients[c].pc == Ready
    ensures Enter(s.g, cfg.n, c, cfg.sched[s.clients[c].At()]).1 != Ready
  {
    hide SyncInv, Opened, Find, Cleanup, Register;
  }

  lemma StepSessions(cfg: Config, s: State, c: nat, p: nat)
    requires Sound(cfg) && SyncInv(cfg, s) && Runnable(cfg, s, c) && Enabled(cfg, s, c) && IsSession(cfg, p)
    ensures var call := cfg.sched[p];
      var g' := Step(cfg, s, c).g;
      if Registers(cfg, s, c, p) then
        Lookup(g', call.sid) == Lookup(Register(s.g, call.sid, call.roles[c], c, call.ends[c]), call.sid)
        && call.sid in g'.sessions
      else
        Lookup(g', call.sid) == Lookup(s.g, call.sid) && (call.sid in g'.sessions <==> call.sid in s.g.sessions)
  {
    var at := s.clients[c].At();
    if s.clients[c].pc == Ready {
      EnterSessions(s.g, cfg.n, c, cfg.sched[at], cfg.sched[p].sid);
      assert cfg.sched[at].Session? && at != p ==> cfg.sched[at].sid != cfg.sched[p].sid;
    }
    hide SyncInv, Sound, Enter, Lookup, Register, PeerOf, Via;
    if s.clients[c].pc != Ready {
      SameLookup(s.g, Step(cfg, s, c).g, cfg.sched[p].sid);
    }
  }

  lemma SameLookup(g: Shared, g': Shared, sid: nat)
    requires g'.sessions == g.sessions
    ensures Lookup(g', sid) == Lookup(g, sid)
  {
  }

  lemma EnterSessions(g: Shared, n: nat, c: nat, call: Call, sid: nat)
    requires Fits(call, n) && c < n && Keyed(g, g.opId)
    ensures var g' := Enter(g, n, c, call).0;
      if call.Session? && call.sid == sid then
        Lookup(g', sid) == Lookup(Register(g, sid, call.roles[c], c, call.ends[c]), sid) && sid in g'.sessions
      else
        Lookup(g', sid) == Lookup(g, sid) && (sid in g'.sessions <==> sid in g.sessions)
  {
    hide Find, Cleanup;
  }

  lemma OtherEntry(cfg: Config, s: State, s': State, c: nat, p: nat)
    requires IsSession(cfg, p) && |s.clients| == |s'.clients| == cfg.n && EntryOk(cfg, s, p)
    requires forall d :: 0 <= d < cfg.n ==> (Made(s'.clients[d], p) <==> Made(s.clients[d], p))
    requires Lookup(s'.g, cfg.sched[p].sid) == Lookup(s.g, cfg.sched[p].sid)
    requires cfg.sched[p].sid in s'.g.sessions <==> cfg.sched[p].sid in s.g.sessions
    ensures EntryOk(cfg, s', p)
  {
    hide Made, Lookup;
  }

  lemma NewEntry(cfg: Config, s: State, s': State, c: nat, p: nat)
    requires IsSession(cfg, p) && |s.clients| == |s'.clients| == cfg.n && c < cfg.n && EntryOk(cfg, s, p)
    requires forall d :: 0 <= d < cfg.n ==> (Made(s'.clients[d], p) <==> Made(s.clients[d], p) || d == c)
    requires var call := cfg.sched[p];
      Lookup(s'.g, call.sid) == Lookup(Register(s.g, call.sid, call.roles[c], c, call.ends[c]), call.sid)
      && call.sid in s'.g.sessions
    ensures EntryOk(cfg, s', p)
  {
    hide Made;
  }

  lemma StepKeepsSession(cfg: Config, s: State, c: nat)
    requires Sound(cfg) && SyncInv(cfg, s) && SessionInv(cfg, s) && Runnable(cfg, s, c) && Enabled(cfg, s, c)
    ensures SessionInv(cfg, Step(cfg, s, c))
  {
    hide SyncInv, EntryOk, Step, Made, Enabled, Lookup, Register;
    var s' := Step(cfg, s, c);
    StepMade(cfg, s, c, 0);
    forall p | 0 <= p < |cfg.sched| && IsSession(cfg, p) ensures EntryOk(cfg, s', p) {
      StepMade(cfg, s, c, p);
      StepSessions(cfg, s, c, p);
      if Registers(cfg, s, c, p) {
        NewEntry(cfg, s, s', c, p);
      } else {
        OtherEntry(cfg, s, s', c, p);
      }
    }
  }

  // ---------------------------------------------------------------- answers

  // Whoever collects the answer of a session, or has done so, finds everyone registered.
  lemma Everyone(cfg: Config, s: State, c: nat, d: nat, p: nat)
    requires SyncInv(cfg, s) && IsSession(cfg, p) && c < cfg.n && d < cfg.n
    requires p < s.clients[c].At() || (p == s.clients[c].At() && s.clients[c].pc == Collect)
    ensures Made(s.clients[d], p)
  {
    if p < s.clients[c].At() {
      NoneBehind(cfg, s, c, d, p);
    } else {
      assert Placed(cfg, s.g.opId, s.clients[c]) && Placed(cfg, s.g.opId, s.clients[d]);
      if s.clients[d].At() < p {
        SyncsMonotone(cfg.sched, s.clients[d].At() + 1, p);
      }
    }
  }

  // An answer is there exactly if someone plays the other part; it is the endpoint of such a
  // client, and a root gets the one that registered first.
  lemma Collected(cfg: Config, s: State, c: nat, p: nat)
    requires SyncInv(cfg, s) && SessionInv(cfg, s) && IsSession(cfg, p) && c < cfg.n
    requires p < s.clients[c].At() || (p == s.clients[c].At() && s.clients[c].pc == Collect)
    ensures var call := cfg.sched[p];
      var peer := PeerOf(s.g, call.sid, call.roles[c]);
      && (peer.Some? <==> exists d :: 0 <= d < cfg.n && Opposite(call, c, d))
      && (peer.Some? ==> exists d :: 0 <= d < cfg.n && Opposite(call, c, d) && peer == Some(call.ends[d]))
      && (peer.Some? && call.roles[c] == 1 ==>
            var order := Lookup(s.g, call.sid).order;
            order != [] && order[0] < cfg.n && Opposite(call, c, order[0]) && peer == Some(call.ends[order[0]]))
  {
    var call := cfg.sched[p];
    forall d | 0 <= d < cfg.n ensures Made(s.clients[d], p) {
      Everyone(cfg, s, c, d, p);
    }
    assert EntryOk(cfg, s, p);
    hide SyncInv, SessionInv, Made;
    var e := Lookup(s.g, call.sid);
    assert Made(s.clients[c], p);
    if d :| 0 <= d < cfg.n && Opposite(call, c, d) {
      assert Made(s.clients[d], p);
      assert call.roles[c] == 1 ==> d in e.order;
    }
    if call.roles[c] != 1 && e.root.Some? {
      var d :| 0 <= d < cfg.n && call.roles[d] == 1 && e.root == Some(call.ends[d]);
      assert Opposite(call, c, d);
    }
    if call.roles[c] == 1 && e.order != [] {
      assert e.order[0] in e.order;
      assert Opposite(call, c, e.order[0]);
    }
  }

  lemma StepKeepsAnswers(cfg: Config, s: State, c: nat)
    requires Sound(cfg) && SyncInv(cfg, s) && SessionInv(cfg, s) && AllAnswered(cfg, s)
    requires Runnable(cfg, s, c) && Enabled(cfg, s, c)
    ensures |Step(cfg, s, c).clients| == cfg.n && AllAnswered(cfg, Step(cfg, s, c))
  {
    hide SyncInv, SessionInv, Step, Enabled, PeerOf, Lookup, Registers;
    var s' := Step(cfg, s, c);
    StepMade(cfg, s, c, 0);
    forall d, p | 0 <= d < cfg.n && 0 <= p < |cfg.sched| && IsSession(cfg, p) ensures Answered(cfg, s', d, p) {
      StepAnswer(cfg, s, c, d, p);
    }
  }

  lemma StepAnswer(cfg: Config, s: State, c: nat, d: nat, p: nat)
    requires Sound(cfg) && SyncInv(cfg, s) && SessionInv(cfg, s) && AllAnswered(cfg, s)
    requires Runnable(cfg, s, c) && Enabled(cfg, s, c)
    requires |Step(cfg, s, c).clients| == cfg.n && d < cfg.n && IsSession(cfg, p)
    ensures Answered(cfg, Step(cfg, s, c), d, p)
  {
    hide SyncInv, SessionInv, Step, Enabled, Lookup, PeerOf, Sound;
    assert Answered(cfg, s, d, p);
    StepMade(cfg, s, c, p);
    if p < |s.clients[d].got| {
      OldAnswer(cfg, s, c, d, p);
    } else if d == c {
      NewAnswer(cfg, s, c, p);
    }
  }

  // An answer given is not affected by a later step.
  lemma OldAnswer(cfg: Config, s: State, c: nat, d: nat, p: nat)
    requires Sound(cfg) && SyncInv(cfg, s) && Runnable(cfg, s, c) && Enabled(cfg, s, c)
    requires d < cfg.n && IsSession(cfg, p) && Answered(cfg, s, d, p) && p < |s.clients[d].got|
    requires |Step(cfg, s, c).clients| == cfg.n
    ensures Answered(cfg, Step(cfg, s, c), d, p)
  {
    Everyone(cfg, s, d, c, p);
    StepSessions(cfg, s, c, p);
    assert !Registers(cfg, s, c, p);
    hide SyncInv, Sound, Register, Registers;
    SamePeer(s.g, Step(cfg, s, c).g, cfg.sched[p].sid, cfg.sched[p].roles[d]);
    hide PeerOf, Lookup, Enter, Leave, Mark, Via;
  }

  lemma SamePeer(g: Shared, g': Shared, sid: nat, role: nat)
    requires Lookup(g', sid) == Lookup(g, sid) && (sid in g'.sessions <==> sid in g.sessions)
    ensures PeerOf(g', sid, role) == PeerOf(g, sid, role)
  {
  }

  lemma NewAnswer(cfg: Config, s: State, c: nat, p: nat)
    requires SyncInv(cfg, s) && Runnable(cfg, s, c) && IsSession(cfg, p)
    requires |Step(cfg, s, c).clients| == cfg.n && p >= |s.clients[c].got|
    ensures Answered(cfg, Step(cfg, s, c), c, p)
  {
    hide OpenRound, Ledger, Enter, Leave, Mark, Via, PeerOf;
    assert Placed(cfg, s.g.opId, s.clients[c]);
  }

  // ---------------------------------------------------------------- runs

  lemma InitSession(cfg: Config)
    requires Sound(cfg)
    ensures SyncInv(cfg, Init(cfg)) && SessionInv(cfg, Init(cfg)) && AllAnswered(cfg, Init(cfg))
  {
    InitSync(cfg);
  }

  lemma {:induction false} SessionRun(cfg: Config, s: State, run: seq<nat>)
    requires Sound(cfg) && SyncInv(cfg, s) && SessionInv(cfg, s) && AllAnswered(cfg, s) && Legal(cfg, s, run)
    ensures var e := Run(cfg, s, run); SyncInv(cfg, e) && SessionInv(cfg, e) && AllAnswered(cfg, e)
    decreases |run|
  {
    if run != [] {
      hide SyncInv, SessionInv, AllAnswered, Sound, Step, Enabled, Runnable;
      CanAct(cfg, s, run[0]);
      StepKeepsSync(cfg, s, run[0]);
      StepKeepsSession(cfg, s, run[0]);
      StepKeepsAnswers(cfg, s, run[0]);
      SessionRun(cfg, Next(cfg, s, run[0]), run[1..]);
    }
  }

  // The roots, or the workers, that register in session call p during a run, in order.
  ghost function Registered(cfg: Config, s: State, p: nat, root: bool, run: seq<nat>): seq<nat>
    requires IsSession(cfg, p)
    decreases |run|
  {
    if run == [] then []
    else
      (if Registers(cfg, s, run[0], p) && Enabled(cfg, s, run[0])
          && (cfg.sched[p].roles[run[0]] == 1) == root then [run[0]] else [])
      + Registered(cfg, Next(cfg, s, run[0]), p, root, run[1..])
  }

  lemma RegisterOrder(cfg: Config, s: State, c: nat, p: nat)
    requires Sound(cfg) && SyncInv(cfg, s) && SessionInv(cfg, s) && IsSession(cfg, p) && Runnable(cfg, s, c)
      && Enabled(cfg, s, c)
    ensures Lookup(Step(cfg, s, c).g, cfg.sched[p].sid).order
      == Lookup(s.g, cfg.sched[p].sid).order
         + (if Registers(cfg, s, c, p) && cfg.sched[p].roles[c] != 1 then [c] else [])
    ensures Lookup(Step(cfg, s, c).g, cfg.sched[p].sid).root
      == if Registers(cfg, s, c, p) && cfg.sched[p].roles[c] == 1 then Some(cfg.sched[p].ends[c])
         else Lookup(s.g, cfg.sched[p].sid).root
  {
    StepSessions(cfg, s, c, p);
    assert EntryOk(cfg, s, p);
    hide SyncInv, SessionInv, Sound, Step;
  }

  lemma {:induction false} OrderIsRegistered(cfg: Config, s: State, p: nat, run: seq<nat>)
    requires Sound(cfg) && SyncInv(cfg, s) && SessionInv(cfg, s) && IsSession(cfg, p) && Legal(cfg, s, run)
    ensures Lookup(Run(cfg, s, run).g, cfg.sched[p].sid).order
      == Lookup(s.g, cfg.sched[p].sid).order + Registered(cfg, s, p, false, run)
    decreases |run|
  {
    hide SyncInv, SessionInv, Sound, Step, Enabled, Runnable, Lookup, Registers, IsSession;
    if run != [] {
      CanAct(cfg, s, run[0]);
      StepKeepsSync(cfg, s, run[0]);
      StepKeepsSession(cfg, s, run[0]);
      RegisterOrder(cfg, s, run[0], p);
      OrderIsRegistered(cfg, Next(cfg, s, run[0]), p, run[1..]);
    }
  }

  // The last of the roots that register, if there is one.
  lemma {:induction false} RootIsLast(cfg: Config, s: State, p: nat, run: seq<nat>)
    requires Sound(cfg) && SyncInv(cfg, s) && SessionInv(cfg, s) && IsSession(cfg, p) && Legal(cfg, s, run)
    ensures var roots, call := Registered(cfg, s, p, true, run), cfg.sched[p];
      && (forall i :: 0 <= i < |roots| ==> roots[i] < cfg.n && call.roles[roots[i]] == 1)
      && Lookup(Run(cfg, s, run).g, call.sid).root
        == if roots == [] then Lookup(s.g, call.sid).root else Some(call.ends[roots[|roots| - 1]])
    decreases |run|
  {
    if run != [] {
      CanAct(cfg, s, run[0]);
      StepKeepsSync(cfg, s, run[0]);
      StepKeepsSession(cfg, s, run[0]);
      RegisterOrder(cfg, s, run[0], p);
      hide SyncInv, SessionInv, Sound, Step, Enabled, Lookup, Legal;
      RootIsLast(cfg, Next(cfg, s, run[0]), p, run[1..]);
    }
  }

  // Session exchange, for any run and any number of roots and workers: whoever has an answer has
  // the endpoint of a client that plays the other part: a root that of the worker that registered
  // first, and a worker that of the root that registered last.
  lemma SessionExchange(cfg: Config, run: seq<nat>, c: nat, p: nat)
    requires Sound(cfg) && Legal(cfg, Init(cfg), run) && c < cfg.n && IsSession(cfg, p)
    ensures var s := Run(cfg, Init(cfg), run);
      |s.clients| == cfg.n &&
      var call, order := cfg.sched[p], Registered(cfg, Init(cfg), p, cfg.sched[p].roles[c] != 1, run);
      p < |s.clients[c].got| ==>
        && (exists d :: 0 <= d < cfg.n && Opposite(call, c, d) && s.clients[c].got[p] == Peer(call.ends[d]))
        && order != []
        && var d := if call.roles[c] == 1 then order[0] else order[|order| - 1];
        d < cfg.n && (call.roles[d] == 1) != (call.roles[c] == 1) && s.clients[c].got[p] == Peer(call.ends[d])
  {
    InitSession(cfg);
    assert Lookup(Init(cfg).g, cfg.sched[p].sid) == Registry(None, [], map[]);
    hide Init, SyncInv, SessionInv, AllAnswered, Run, Sound, Legal, PeerOf, Registered, Lookup, Opposite;
    SessionRun(cfg, Init(cfg), run);
    OrderIsRegistered(cfg, Init(cfg), p, run);
    RootIsLast(cfg, Init(cfg), p, run);
    var s := Run(cfg, Init(cfg), run);
    SyncSize(cfg, s);
    if p < |s.clients[c].got| {
      AnswerFrom(cfg, s, c, p);
      Collected(cfg, s, c, p);
    }
  }

  // An answer is what the entry says: for a worker the root's endpoint, for a root the first worker's.
  lemma AnswerFrom(cfg: Config, s: State, c: nat, p: nat)
    requires SyncInv(cfg, s) && SessionInv(cfg, s) && AllAnswered(cfg, s) && IsSession(cfg, p) && c < cfg.n
    requires p < |s.clients[c].got|
    ensures var call := cfg.sched[p];
      && PeerOf(s.g, call.sid, call.roles[c]).Some?
      && s.clients[c].got[p] == Peer(PeerOf(s.g, call.sid, call.roles[c]).value)
      && (call.roles[c] != 1 ==> PeerOf(s.g, call.sid, call.roles[c]) == Lookup(s.g, call.sid).root)
  {
    assert Answered(cfg, s, c, p);
    hide SyncInv, SessionInv;
  }

  // One root: it is the root's endpoint that every worker gets.
  lemma WorkersGetTheRoot(cfg: Config, run: seq<nat>, c: nat, x: nat, p: nat)
    requires Sound(cfg) && Legal(cfg, Init(cfg), run) && c < cfg.n && x < cfg.n && IsSession(cfg, p)
    requires forall d :: 0 <= d < cfg.n ==> (cfg.sched[p].roles[d] == 1 <==> d == x)
    ensures var s := Run(cfg, Init(cfg), run);
      |s.clients| == cfg.n && (p < |s.clients[c].got| && c != x ==> s.clients[c].got[p] == Peer(cfg.sched[p].ends[x]))
  {
    SessionExchange(cfg, run, c, p);
  }

  // Two participants swap their endpoints.
  lemma PairSwaps(cfg: Config, run: seq<nat>, c: nat, p: nat)
    requires Sound(cfg) && Legal(cfg, Init(cfg), run) && cfg.n == 2 && c < 2 && IsSession(cfg, p)
    requires Opposite(cfg.sched[p], 0, 1)
    ensures var s := Run(cfg, Init(cfg), run);
      |s.clients| == 2 && (p < |s.clients[c].got| ==> s.clients[c].got[p] == Peer(cfg.sched[p].ends[1 - c]))
  {
    hide Run, Init, Legal, Sound, Registered;
    SessionExchange(cfg, run, c, p);
  }

  // The read that ends a session raises an exception exactly if nobody plays the other part.
  lemma CollectFails(cfg: Config, run: seq<nat>, c: nat)
    requires Sound(cfg) && Legal(cfg, Init(cfg), run) && c < cfg.n
    ensures var s := Run(cfg, Init(cfg), run);
      |s.clients| == cfg.n &&
      var p := s.clients[c].At();
      s.clients[c].pc == Collect ==>
        IsSession(cfg, p) && Runnable(cfg, s, c)
        && (Step(cfg, s, c).clients[c].pc == Failed <==> forall d :: 0 <= d < cfg.n ==> !Opposite(cfg.sched[p], c, d))
  {
    InitSession(cfg);
    SessionRun(cfg, Init(cfg), run);
    var s := Run(cfg, Init(cfg), run);
    assert Placed(cfg, s.g.opId, s.clients[c]);
    if s.clients[c].pc == Collect {
      Collected(cfg, s, c, s.clients[c].At());
      hide SyncInv, SessionInv, Run, Sound, Legal, PeerOf, Registered, Opposite;
    }
  }
}
