// The state of controller/controller.py as mutable fields, and its handlers cut at the points
// where the lock is taken or released, or something is read without it. Every piece is proved to
// do what its counterpart in ControllerModel does to the fields seen as one value.

module ControllerServer {
  import opened Wrappers
  import opened ControllerModel
  import opened ControllerSync

  // The three parallel lists of Broadcast as one.
  function Zip(bitmap: seq<seq<bool>>, values: seq<Option<nat>>, events: seq<nat>): (rows: seq<Row>)
    requires |bitmap| == |values| == |events|
    ensures |rows| == |bitmap|
    ensures forall i :: 0 <= i < |rows| ==> rows[i] == Row(bitmap[i], values[i], events[i])
  {
    seq(|bitmap|, i requires 0 <= i < |bitmap| => Row(bitmap[i], values[i], events[i]))
  }

  lemma {:induction false} CleanupNext(rows: seq<Row>, i: nat)
    requires i < |rows|
    ensures Cleanup(rows[i..]) == (if Full(rows[i].marks) then [] else [rows[i]]) + Cleanup(rows[i + 1..])
  {
    assert rows[i..][1..] == rows[i + 1..];
  }

  lemma {:induction false} FindNext(rows: seq<Row>, i: nat, rank: nat)
    requires i < |rows| && rank < |rows[i].marks|
    ensures Find(rows[i..], rank) == if !rows[i].marks[rank] then 0 else 1 + Find(rows[i + 1..], rank)
  {
    assert rows[i..][1..] == rows[i + 1..];
  }

  // All calls pass the same number of workers, so every row has a mark for each of n ranks.
  ghost predicate Wide(rows: seq<Row>, n: nat) {
    forall i :: 0 <= i < |rows| ==> |rows[i].marks| == n
  }

  lemma {:induction false} CleanupWide(rows: seq<Row>, n: nat)
    requires Wide(rows, n)
    ensures Wide(Cleanup(rows), n)
  {
    if rows != [] {
      CleanupWide(rows[1..], n);
    }
  }

  lemma JoinWide(g: Shared, n: nat, rank: nat, root: nat, value: nat)
    requires Wide(g.rows, n)
    ensures Wide(Join(g, n, rank, root, value).0.rows, n)
  {
    CleanupWide(g.rows, n);
    hide Cleanup, Find;
  }

  lemma ActWide(cfg: Config, s: State, c: nat)
    requires Runnable(cfg, s, c) && Wide(s.g.rows, cfg.n)
    ensures Wide(Act(cfg, s, c).0.rows, cfg.n)
  {
    var call := cfg.sched[s.clients[c].At()];
    if s.clients[c].pc == Ready && call.Broadcast? {
      JoinWide(s.g, cfg.n, c, call.root, call.values[c]);
    }
    hide Join, Wide, PeerOf, Via, Lookup;
    if s.clients[c].pc.RowWait? && s.clients[c].pc.idx < |s.g.rows| && c < |s.g.rows[s.clients[c].pc.idx].marks| {
      MarkWide(s.g, cfg.n, s.clients[c].pc.idx, c);
    }
    hide Mark;
  }

  lemma MarkWide(g: Shared, n: nat, idx: nat, rank: nat)
    requires Wide(g.rows, n) && idx < |g.rows| && rank < |g.rows[idx].marks|
    ensures Wide(Mark(g, idx, rank).rows, n)
  {
  }

  class Controller {
    // Barrier state. An event is a number, with membership in firedEvents for being set.
    var barrierOpId: nat
    var barrierCtrs: map<nat, int>
    var barrierEvents: map<nat, nat>
    var firedEvents: set<nat>
    // Broadcast state
    var bcastValues: seq<Option<nat>>
    var bcastBitmap: seq<seq<bool>>
    var bcastEvents: seq<nat>
    var bcastCreated: nat
    var postedEvents: set<nat>
    // Session
    var sessions: map<nat, Registry>

    ghost predicate Valid()
      reads this
    {
      && |bcastBitmap| == |bcastValues| == |bcastEvents|
      && forall r :: r in barrierEvents ==> barrierEvents[r] == r
    }

    ghost function View(): Shared
      reads this
      requires Valid()
    {
      Shared(barrierOpId, barrierCtrs, barrierEvents.Keys, firedEvents,
             Zip(bcastBitmap, bcastValues, bcastEvents), bcastCreated, postedEvents, sessions)
    }

    constructor ()
      ensures Valid() && View() == Start()
    {
      barrierOpId, barrierCtrs, barrierEvents, firedEvents := 0, map[0 := 0], map[0 := 0], {};
      bcastValues, bcastBitmap, bcastEvents, bcastCreated, postedEvents := [], [], [], 0, {};
      sessions := map[];
    }

    // ---------------------------------------------------------------- Barrier

    // controller/controller.py:42-53.
    method BarrierEnter(numWorkers: nat) returns (currentOpId: nat, event: nat)
      requires Valid() && Keyed(View(), barrierOpId)
      modifies this`barrierOpId, this`barrierCtrs, this`barrierEvents, this`firedEvents
      ensures Valid() && View() == Arrive(old(View()), numWorkers)
      ensures currentOpId == event == old(barrierOpId)
    {
      currentOpId := barrierOpId;
      barrierCtrs := barrierCtrs[currentOpId := barrierCtrs[currentOpId] + 1];
      event := CloseIfFull(currentOpId, numWorkers);
    }

    // controller/controller.py:46-53, and the same lines in RdmaSession (123-130).
    method CloseIfFull(currentOpId: nat, numWorkers: nat) returns (event: nat)
      requires Valid() && currentOpId == barrierOpId && Keyed(View(), barrierOpId)
      modifies this`barrierOpId, this`barrierCtrs, this`barrierEvents, this`firedEvents
      ensures Valid() && event == currentOpId
      ensures var g, r := old(View()), currentOpId;
        View() == if g.ctrs[r] < numWorkers then g
          else g.(ctrs := g.ctrs[r + 1 := 0], events := g.events + {r + 1}, fired := g.fired + {r}, opId := r + 1)
    {
      event := barrierEvents[currentOpId];
      if barrierCtrs[currentOpId] >= numWorkers {
        firedEvents := firedEvents + {event};
        barrierOpId := barrierOpId + 1;
        barrierCtrs := barrierCtrs[barrierOpId := 0];
        barrierEvents := barrierEvents[barrierOpId := barrierOpId];
      }
    }

    // controller/controller.py:55 and 132: the counter is read without the lock.
    method MustWait(currentOpId: nat, numWorkers: nat) returns (wait: bool)
      requires Valid() && currentOpId in barrierCtrs
      ensures wait <==> View().ctrs[currentOpId] < numWorkers
    {
      wait := barrierCtrs[currentOpId] < numWorkers;
    }

    // controller/controller.py:57-61, after the wait.
    method LeaveRound(currentOpId: nat)
      requires Valid() && Keyed(View(), currentOpId)
      modifies this`barrierCtrs, this`barrierEvents
      ensures Valid() && View() == Leave(old(View()), currentOpId)
    {
      barrierCtrs := barrierCtrs[currentOpId := barrierCtrs[currentOpId] - 1];
      if barrierCtrs[currentOpId] == 0 {
        barrierCtrs := barrierCtrs - {currentOpId};
        barrierEvents := barrierEvents - {currentOpId};
      }
    }

    // ---------------------------------------------------------------- Broadcast

    // controller/controller.py:71-73.
    method DeleteRow(i: nat)
      requires Valid() && i < |bcastBitmap|
      modifies this`bcastBitmap, this`bcastValues, this`bcastEvents
      ensures Valid() && View() == old(View()).(rows := old(View().rows[..i] + View().rows[i + 1..]))
    {
      bcastBitmap := bcastBitmap[..i] + bcastBitmap[i + 1..];
      bcastValues := bcastValues[..i] + bcastValues[i + 1..];
      bcastEvents := bcastEvents[..i] + bcastEvents[i + 1..];
    }

    // controller/controller.py:69-73.
    method DeleteCompleted()
      requires Valid()
      modifies this`bcastBitmap, this`bcastValues, this`bcastEvents
      ensures Valid() && View() == old(View()).(rows := Cleanup(old(View().rows)))
    {
      hide Full, Cleanup;
      ghost var before := View();
      ghost var rows := before.rows;
      CleanupNothing();
      assert rows[|rows|..] == [] && rows[..|rows|] + [] == rows;
      for i := |bcastBitmap| downto 0
        invariant Valid() && i <= |rows| && i <= |bcastBitmap|
        invariant View() == before.(rows := rows[..i] + Cleanup(rows[i..]))
      {
        CleanupNext(rows, i);
        DeleteOne(rows, i, View().rows);
        var complete := All(bcastBitmap[i]);
        if complete {
          DeleteRow(i);
        }
      }
      assert rows[..0] == [] && rows[0..] == rows;
    }

    static lemma CleanupNothing()
      ensures Cleanup([]) == []
    {
    }

    // The rows before and after position i is dealt with.
    static lemma DeleteOne(rows: seq<Row>, i: nat, now: seq<Row>)
      requires i < |rows| && now == rows[..i + 1] + Cleanup(rows[i + 1..])
      ensures now[i] == rows[i] && now[..i] + now[i + 1..] == rows[..i] + Cleanup(rows[i + 1..])
      ensures now == rows[..i] + ([rows[i]] + Cleanup(rows[i + 1..]))
    {
      hide Cleanup;
    }

    // Python's all().
    static method All(marks: seq<bool>) returns (r: bool)
      ensures r <==> Full(marks)
    {
      for i := 0 to |marks|
        invariant forall k :: 0 <= k < i ==> marks[k]
      {
        if !marks[i] {
          return false;
        }
      }
      return true;
    }

    // controller/controller.py:76-80. Every row has a mark for the rank, as all calls pass the
    // same number of workers.
    method Scan(rank: nat) returns (idx: int)
      requires Valid() && forall i :: 0 <= i < |bcastBitmap| ==> rank < |bcastBitmap[i]|
      ensures idx == if Find(View().rows, rank) < |bcastBitmap| then Find(View().rows, rank) else -1
    {
      ghost var rows := View().rows;
      assert rows[0..] == rows && rows[|rows|..] == [];
      for i := 0 to |bcastBitmap|
        invariant Find(rows, rank) == i + Find(rows[i..], rank)
      {
        FindNext(rows, i, rank);
        if !bcastBitmap[i][rank] {
          return i;
        }
      }
      return -1;
    }

    // controller/controller.py:67-85.
    method OpenRow(rank: nat, numWorkers: nat) returns (idx: nat)
      requires Valid() && rank < numWorkers && forall i :: 0 <= i < |bcastBitmap| ==> rank < |bcastBitmap[i]|
      modifies this`bcastBitmap, this`bcastValues, this`bcastEvents, this`bcastCreated
      ensures Valid() && View() == Opened(old(View()), numWorkers, rank)
      ensures idx == Find(Cleanup(old(View().rows)), rank) < |bcastBitmap|
      ensures rank < |bcastBitmap[idx]|
    {
      hide Cleanup, Find;
      ghost var before := View().rows;
      DeleteCompleted();
      forall i | 0 <= i < |bcastBitmap| ensures rank < |bcastBitmap[i]| {
        CleanupKeeps(before, View().rows[i]);
      }
      var found := Scan(rank);
      if found == -1 {
        idx := |bcastBitmap|;
        bcastBitmap := bcastBitmap + [seq(numWorkers, i => false)];
        bcastValues := bcastValues + [None];
        bcastEvents := bcastEvents + [bcastCreated];
        bcastCreated := bcastCreated + 1;
      } else {
        idx := found;
      }
    }

    static lemma {:induction false} CleanupKeeps(rows: seq<Row>, row: Row)
      requires row in Cleanup(rows)
      ensures row in rows
    {
      if row !in (if Full(rows[0].marks) then [] else [rows[0]]) {
        CleanupKeeps(rows[1..], row);
      }
    }

    // The rank has made its call for the row (controller/controller.py:91, 101 and 103).
    method SetMark(idx: nat, rank: nat)
      requires Valid() && idx < |bcastBitmap| && rank < |bcastBitmap[idx]|
      modifies this`bcastBitmap
      ensures Valid() && View() == Mark(old(View()), idx, rank)
    {
      bcastBitmap := bcastBitmap[idx := bcastBitmap[idx][rank := true]];
    }

    // controller/controller.py:89-90.
    method PostValue(idx: nat, value: nat)
      requires Valid() && idx < |bcastBitmap|
      modifies this`bcastValues, this`postedEvents
      ensures Valid() && View() == Post(old(View()), idx, value)
    {
      bcastValues := bcastValues[idx := Some(value)];
      postedEvents := postedEvents + {bcastEvents[idx]};
    }

    // controller/controller.py:67-103 up to the release of the lock: the client reads next, or
    // waits for the event of its row.
    method BroadcastEnter(rank: nat, numWorkers: nat, root: nat, value: nat) returns (pc: Pc)
      requires Valid() && rank < numWorkers && forall i :: 0 <= i < |bcastBitmap| ==> |bcastBitmap[i]| == numWorkers
      modifies this
      ensures Valid() && (View(), pc) == Join(old(View()), numWorkers, rank, root, value)
    {
      hide Find, Cleanup;
      var idx := OpenRow(rank, numWorkers);
      if rank == root {
        PostValue(idx, value);
        SetMark(idx, rank);
        pc := RowRead(idx);
      } else if bcastValues[idx] == None {
        pc := RowWait(idx, bcastEvents[idx]);
      } else {
        SetMark(idx, rank);
        pc := RowRead(idx);
      }
    }

    // ---------------------------------------------------------------- RdmaSession

    // controller/controller.py:110-130.
    method SessionEnter(numWorkers: nat, sid: nat, role: nat, rank: nat, e: Endpoint)
        returns (currentOpId: nat, event: nat)
      requires Valid() && Keyed(View(), barrierOpId)
      modifies this
      ensures Valid() && View() == Register(Arrive(old(View()), numWorkers), sid, role, rank, e)
      ensures currentOpId == event == old(barrierOpId)
    {
      currentOpId := barrierOpId;
      barrierCtrs := barrierCtrs[currentOpId := barrierCtrs[currentOpId] + 1];
      RegisterRequest(sid, role, rank, e);
      event := CloseIfFull(currentOpId, numWorkers);
    }

    // controller/controller.py:114-119.
    method RegisterRequest(sid: nat, role: nat, rank: nat, e: Endpoint)
      requires Valid()
      modifies this`sessions
      ensures Valid() && View() == Register(old(View()), sid, role, rank, e)
    {
      if sid !in sessions {
        sessions := sessions[sid := Registry(None, [], map[])];
      }
      var s := sessions[sid];
      if role == 1 {
        sessions := sessions[sid := s.(root := Some(e))];
      } else {
        sessions := sessions[sid := s.(workers := s.workers[rank := e],
                                       order := if rank in s.workers then s.order else s.order + [rank])];
      }
    }

    // controller/controller.py:140-161; None stands for the exception.
    method SessionAnswer(sid: nat, role: nat) returns (peer: Option<Endpoint>)
      requires Valid()
      ensures peer == PeerOf(View(), sid, role)
    {
      if sid !in sessions {
        return None;
      }
      if role == 1 {
        var reqs := sessions[sid];
        if reqs.order == [] || reqs.order[0] !in reqs.workers {
          return None;
        }
        return Some(reqs.workers[reqs.order[0]]);
      }
      return sessions[sid].root;
    }

    // ---------------------------------------------------------------- the handlers as a whole

    // One step of the handler that serves client c, cut as in the three methods of the source:
    // it does to the fields what the step of the machine does to the server.
    method Serve(cfg: Config, ghost s: State, c: nat, cl: Client) returns (cl': Client)
      requires Valid() && Runnable(cfg, s, c) && s.g == View() && s.clients[c] == cl
      requires Wide(View().rows, cfg.n)
      modifies this
      ensures Valid() && (View(), cl') == (Act(cfg, s, c).0, Act(cfg, s, c).1)
      ensures Wide(View().rows, cfg.n)
    {
      ActWide(cfg, s, c);
      forall i | 0 <= i < |bcastBitmap| ensures |bcastBitmap[i]| == cfg.n {
        assert View().rows[i].marks == bcastBitmap[i];
      }
      hide Wide, Join, Arrive, Register, Leave, Mark, PeerOf, Via;
      var call := cfg.sched[cl.At()];
      match cl.pc
      case Ready =>
        var pc := Begin(cfg.n, c, call);
        cl' := cl.(pc := pc);
      case Check(r) =>
        if r !in barrierCtrs {
          cl' := cl.(pc := Failed);
        } else {
          var wait := MustWait(r, cfg.n);
          cl' := if wait then cl.(pc := Wait(r)) else PastRound(cl, call);
        }
      case Wait(r) =>
        if r !in barrierCtrs || r !in barrierEvents {
          cl' := cl.(pc := Failed);
        } else {
          LeaveRound(r);
          cl' := PastRound(cl, call);
        }
      case Collect =>
        cl' := cl.(pc := Failed);
        if call.Session? {
          var peer := SessionAnswer(call.sid, call.roles[c]);
          if peer.Some? {
            cl' := cl.Finish(Peer(peer.value));
          }
        }
      case RowWait(idx, _) =>
        if idx < |bcastBitmap| {
          SetMark(idx, c);
          cl' := cl.(pc := RowRead(idx));
        } else {
          cl' := cl.(pc := Failed);
        }
      case RowRead(idx) =>
        cl' := if idx < |bcastValues| then cl.Finish(Value(bcastValues[idx])) else cl.(pc := Failed);
      case Failed =>
        cl' := cl;
    }

    method Begin(n: nat, c: nat, call: Call) returns (pc: Pc)
      requires Valid() && Fits(call, n) && c < n
      requires forall i :: 0 <= i < |bcastBitmap| ==> |bcastBitmap[i]| == n
      modifies this
      ensures Valid() && (View(), pc) == Enter(old(View()), n, c, call)
    {
      hide Join, Arrive, Register;
      if call.Broadcast? {
        pc := BroadcastEnter(c, n, call.root, call.values[c]);
      } else if barrierOpId !in barrierCtrs || barrierOpId !in barrierEvents {
        pc := Failed;
      } else {
        var currentOpId, event;
        if call.Barrier? {
          currentOpId, event := BarrierEnter(n);
        } else {
          currentOpId, event := SessionEnter(n, call.sid, call.roles[c], c, call.ends[c]);
        }
        pc := Check(currentOpId);
      }
    }
  }

  lemma NextOf(cfg: Config, run: seq<nat>, i: nat)
    requires Sound(cfg) && Legal(cfg, Init(cfg), run) && i < |run|
    ensures var s := Run(cfg, Init(cfg), run[..i]);
      Runnable(cfg, s, run[i]) && Run(cfg, Init(cfg), run[..i + 1]) == Step(cfg, s, run[i])
  {
    hide SyncInv, Step, Sound, Runnable, Enabled;
    var pre, one, post := run[..i], [run[i]], run[i + 1..];
    var s := Run(cfg, Init(cfg), pre);
    assert run == pre + (one + post) && run[..i + 1] == pre + one;
    RunConcat(cfg, Init(cfg), pre, one + post);
    RunConcat(cfg, s, one, post);
    RunConcat(cfg, Init(cfg), pre, one);
    assert one[1..] == [];
    Reachable(cfg, pre);
    CanAct(cfg, s, run[i]);
    assert Run(cfg, s, one) == Run(cfg, Next(cfg, s, run[i]), []);
  }

  // A server that serves a run, client step by client step, ends with the fields, and its clients
  // with the answers, that the machine ends with.
  method ServeRun(cfg: Config, run: seq<nat>) returns (server: Controller, clients: seq<Client>)
    requires Sound(cfg) && Legal(cfg, Init(cfg), run)
    ensures fresh(server) && server.Valid()
    ensures server.View() == Run(cfg, Init(cfg), run).g && clients == Run(cfg, Init(cfg), run).clients
  {
    hide Act, Sound, Legal, Run, Runnable, Wide;
    server := new Controller();
    clients := seq(cfg.n, i => Client(Ready, []));
    ghost var s := Init(cfg);
    assert run[..0] == [] && Run(cfg, s, []) == s by { RunNothing(cfg, s); }
    NoRows(cfg.n);
    for i := 0 to |run|
      invariant fresh(server) && server.Valid() && Wide(server.View().rows, cfg.n)
      invariant s == Run(cfg, Init(cfg), run[..i]) && server.View() == s.g && clients == s.clients
    {
      NextOf(cfg, run, i);
      var c := run[i];
      RunnableClient(cfg, s, c);
      var cl := server.Serve(cfg, s, c, clients[c]);
      clients := clients[c := cl];
      s := Step(cfg, s, c);
    }
    assert run[..|run|] == run;
  }

  lemma RunNothing(cfg: Config, s: State)
    ensures Run(cfg, s, []) == s
  {
  }

  lemma NoRows(n: nat)
    ensures Wide([], n)
  {
  }

  lemma RunnableClient(cfg: Config, s: State, c: nat)
    requires Runnable(cfg, s, c)
    ensures c < |s.clients|
  {
  }
}
