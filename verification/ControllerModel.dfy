// The collectives of controller/controller.py as a machine over interleaved steps.
//
// A step is what one handler thread does without another one getting in between: a section
// under the lock, one access outside the lock, or the return of a wait together with the lock
// section after it. The class Controller performs exactly these sections on mutable fields.

module ControllerModel {
  import opened Wrappers

  const POOL_SIZE := 10  // max_workers of the thread pool

  datatype Endpoint = Endpoint(rkey: nat, raddr: nat, qpn: nat, psn: nat, gidSubnet: nat, gidIface: nat, lid: nat)

  // One collective operation; position c of a sequence is what client c passes.
  datatype Call =
    | Barrier
    | Broadcast(root: nat, values: seq<nat>)
    | Session(sid: nat, roles: seq<nat>, ends: seq<Endpoint>)

  // Clients 0..n-1 make the same calls in the same order, one at a time.
  datatype Config = Config(n: nat, sched: seq<Call>)

  // ---------------------------------------------------------------- what the server holds

  // One entry of the three parallel lists; an event is known by the number of its row.
  datatype Row = Row(marks: seq<bool>, value: Option<nat>, event: nat)

  // One entry of _sessions. `order` is the insertion order of the keys of `workers`.
  datatype Registry = Registry(root: Option<Endpoint>, order: seq<nat>, workers: map<nat, Endpoint>)

  datatype Shared = Shared(
    opId: nat,
    ctrs: map<nat, int>,
    events: set<nat>,        // the keys of _barrier_events; the event of a round is known by the round
    fired: set<nat>,         // the rounds whose event is set
    rows: seq<Row>,
    created: nat,            // rows created so far
    posted: set<nat>,        // the rows whose event is set
    sessions: map<nat, Registry>)

  // ---------------------------------------------------------------- where a client is

  datatype Pc =
    | Ready                              // between two calls
    | Check(round: nat)                  // about to read the counter outside the lock
    | Wait(round: nat)                   // inside event.wait()
    | Collect                            // about to read the session
    | RowWait(idx: nat, event: nat)      // inside current_event.wait()
    | RowRead(idx: nat)                  // about to read _bcast_values[idx] outside the lock
    | Failed                             // the handler raised an exception

  // The answer to a Broadcast is the Python value; None is not a number.
  datatype Answer = Done | Value(value: Option<nat>) | Peer(endpoint: Endpoint)

  // The number that arrives at the client: a field that is not set is read as 0
  // (proto/flashreduce.proto:56).
  function OnWire(value: Option<nat>): nat {
    if value.Some? then value.value else 0
  }

  datatype Client = Client(pc: Pc, got: seq<Answer>) {
    function At(): nat { |got| }                                   // the position of the current or next call
    predicate Busy() { pc != Ready && pc != Failed }               // its handler occupies a pool thread
    predicate Holds() { pc.RowWait? || pc.RowRead? }               // it holds an index into the lists
    function Finish(a: Answer): Client { Client(Ready, got + [a]) }
  }

  datatype State = State(
    g: Shared,
    clients: seq<Client>,
    via: map<nat, set<nat>>)  // for each round, the clients that have left it through the wait

  // ---------------------------------------------------------------- sections of Barrier and RdmaSession

  function Start(): Shared {
    Shared(0, map[0 := 0], {0}, {}, [], 0, {}, map[])
  }

  predicate Keyed(g: Shared, round: nat) { round in g.ctrs && round in g.events }

  // Join the current round, and close it when it is full.
  function Arrive(g: Shared, n: nat): Shared
    requires Keyed(g, g.opId)
  {
    var r, ctr := g.opId, g.ctrs[g.opId] + 1;
    if ctr < n then g.(ctrs := g.ctrs[r := ctr])
    else g.(ctrs := g.ctrs[r := ctr][r + 1 := 0], events := g.events + {r + 1}, fired := g.fired + {r}, opId := r + 1)
  }

  // After the wait: leave the round, and drop its entry when the counter is back to zero.
  function Leave(g: Shared, round: nat): Shared
    requires Keyed(g, round)
  {
    var ctr := g.ctrs[round] - 1;
    if ctr == 0 then g.(ctrs := g.ctrs - {round}, events := g.events - {round})
    else g.(ctrs := g.ctrs[round := ctr])
  }

  function Lookup(g: Shared, sid: nat): Registry {
    if sid in g.sessions then g.sessions[sid] else Registry(None, [], map[])
  }

  function Register(g: Shared, sid: nat, role: nat, rank: nat, e: Endpoint): Shared {
    var s := Lookup(g, sid);
    var s' := if role == 1 then s.(root := Some(e))
              else s.(workers := s.workers[rank := e],
                  order := if rank in s.workers then s.order else s.order + [rank]);
    g.(sessions := g.sessions[sid := s'])
  }

  // The endpoint RdmaSession answers with; None where it raises an exception.
  function PeerOf(g: Shared, sid: nat, role: nat): Option<Endpoint> {
    if sid !in g.sessions then None
    else
      var s := g.sessions[sid];
      if role != 1 then s.root
      else if s.order != [] && s.order[0] in s.workers then Some(s.workers[s.order[0]])
      else None
  }

  // ---------------------------------------------------------------- sections of Broadcast

  predicate Full(marks: seq<bool>) {
    forall i :: 0 <= i < |marks| ==> marks[i]
  }

  // Deleting the completed operations.
  function Cleanup(rows: seq<Row>): seq<Row> {
    if rows == [] then []
    else (if Full(rows[0].marks) then [] else [rows[0]]) + Cleanup(rows[1..])
  }

  // The first row that `rank` has not marked, or |rows|.
  function Find(rows: seq<Row>, rank: nat): (idx: nat)
    ensures idx <= |rows|
  {
    if rows == [] || (rank < |rows[0].marks| && !rows[0].marks[rank]) then 0 else 1 + Find(rows[1..], rank)
  }

  function NewRow(n: nat, event: nat): Row {
    Row(seq(n, i => false), None, event)
  }

  // The rows after the cleanup, and after adding one if `rank` has marked them all.
  function Opened(g: Shared, n: nat, rank: nat): (r: Shared)
    ensures Find(Cleanup(g.rows), rank) < |r.rows|
  {
    var rows := Cleanup(g.rows);
    if Find(rows, rank) < |rows| then g.(rows := rows)
    else g.(rows := rows + [NewRow(n, g.created)], created := g.created + 1)
  }

  function Mark(g: Shared, idx: nat, rank: nat): Shared
    requires idx < |g.rows| && rank < |g.rows[idx].marks|
  {
    g.(rows := g.rows[idx := g.rows[idx].(marks := g.rows[idx].marks[rank := true])])
  }

  function Post(g: Shared, idx: nat, value: nat): Shared
    requires idx < |g.rows|
  {
    g.(rows := g.rows[idx := g.rows[idx].(value := Some(value))], posted := g.posted + {g.rows[idx].event})
  }

  // The first lock section of Broadcast.
  function Join(g: Shared, n: nat, rank: nat, root: nat, value: nat): (Shared, Pc) {
    var idx, g1 := Find(Cleanup(g.rows), rank), Opened(g, n, rank);
    if rank >= |g1.rows[idx].marks| then (g1, Failed)
    else if rank == root then (Mark(Post(g1, idx, value), idx, rank), RowRead(idx))
    else if g1.rows[idx].value == None then (g1, RowWait(idx, g1.rows[idx].event))
    else (Mark(g1, idx, rank), RowRead(idx))
  }

  // ---------------------------------------------------------------- steps of a client

  predicate Fits(call: Call, n: nat) {
    match call
    case Barrier => true
    case Broadcast(root, values) => root < n && |values| == n
    case Session(_, roles, ends) => |roles| == n && |ends| == n
  }

  // The calls the clients agree on: ranks and roots in bounds, a session id per session.
  ghost predicate Sound(cfg: Config) {
    && cfg.n > 0
    && (forall p :: 0 <= p < |cfg.sched| ==> Fits(cfg.sched[p], cfg.n))
    && (forall p, q :: 0 <= p < q < |cfg.sched| && cfg.sched[p].Session? && cfg.sched[q].Session?
          ==> cfg.sched[p].sid != cfg.sched[q].sid)
  }

  function Init(cfg: Config): State {
    State(Start(), seq(cfg.n, i => Client(Ready, [])), map[])
  }

  function Enter(g: Shared, n: nat, c: nat, call: Call): (Shared, Pc)
    requires Fits(call, n) && c < n
  {
    match call
    case Broadcast(root, values) => Join(g, n, c, root, values[c])
    case Barrier => if Keyed(g, g.opId) then (Arrive(g, n), Check(g.opId)) else (g, Failed)
    case Session(sid, roles, ends) =>
      if Keyed(g, g.opId) then (Register(Arrive(g, n), sid, roles[c], c, ends[c]), Check(g.opId)) else (g, Failed)
  }

  // What follows the barrier part of a call.
  function PastRound(cl: Client, call: Call): Client {
    if call.Session? then cl.(pc := Collect) else cl.Finish(Done)
  }

  ghost function BusyClients(s: State): set<nat> {
    set c | 0 <= c < |s.clients| && s.clients[c].Busy()
  }

  ghost predicate Enabled(cfg: Config, s: State, c: nat) {
    c < |s.clients| && match s.clients[c].pc
    case Ready => s.clients[c].At() < |cfg.sched| && |BusyClients(s)| < POOL_SIZE
    case Wait(r) => r in s.g.fired
    case RowWait(_, e) => e in s.g.posted
    case Failed => false
    case _ => true
  }

  function Via(s: State, round: nat): set<nat> {
    if round in s.via then s.via[round] else {}
  }

  predicate Runnable(cfg: Config, s: State, c: nat) {
    && c < |s.clients| == cfg.n
    && s.clients[c].At() < |cfg.sched|
    && Fits(cfg.sched[s.clients[c].At()], cfg.n)
  }

  // What client c does next: the server, the client and the record of exits afterwards.
  function Act(cfg: Config, s: State, c: nat): (Shared, Client, map<nat, set<nat>>)
    requires Runnable(cfg, s, c)
  {
    var cl, g := s.clients[c], s.g;
    var call := cfg.sched[cl.At()];
    match cl.pc
    case Ready =>
      var (g', pc') := Enter(g, cfg.n, c, call);
      (g', cl.(pc := pc'), s.via)
    case Check(r) =>
      if r !in g.ctrs then (g, cl.(pc := Failed), s.via)
      else if g.ctrs[r] < cfg.n then (g, cl.(pc := Wait(r)), s.via)
      else (g, PastRound(cl, call), s.via)
    case Wait(r) =>
      if !Keyed(g, r) then (g, cl.(pc := Failed), s.via)
      else (Leave(g, r), PastRound(cl, call), s.via[r := Via(s, r) + {c}])
    case Collect =>
      if call.Session? && PeerOf(g, call.sid, call.roles[c]).Some?
      then (g, cl.Finish(Peer(PeerOf(g, call.sid, call.roles[c]).value)), s.via)
      else (g, cl.(pc := Failed), s.via)
    case RowWait(idx, _) =>
      if idx < |g.rows| && c < |g.rows[idx].marks| then (Mark(g, idx, c), cl.(pc := RowRead(idx)), s.via)
      else (g, cl.(pc := Failed), s.via)
    case RowRead(idx) =>
      if idx < |g.rows| then (g, cl.Finish(Value(g.rows[idx].value)), s.via)
      else (g, cl.(pc := Failed), s.via)
    case Failed => (g, cl, s.via)
  }

  function Step(cfg: Config, s: State, c: nat): State
    requires Runnable(cfg, s, c)
  {
    var (g, cl, via) := Act(cfg, s, c);
    State(g, s.clients[c := cl], via)
  }
}
