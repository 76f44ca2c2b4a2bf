// Broadcast over whole runs: who gets which value, and when the row an index names can change
// under a client that holds it.

module ControllerCasts {
  import opened Wrappers
  import opened ControllerModel
  import opened ControllerSync

  // ---------------------------------------------------------------- the sequence of Broadcasts

  // The Broadcasts of the schedule, in order.
  ghost function Casts(sched: seq<Call>): seq<Call> {
    if sched == [] then []
    else
      var k := |sched| - 1;
      Casts(sched[..k]) + (if sched[k].Broadcast? then [sched[k]] else [])
  }

  lemma {:induction false} CastsCount(sched: seq<Call>, k: nat)
    requires k <= |sched|
    ensures |Casts(sched[..k])| == k - Syncs(sched, k)
    ensures Casts(sched[..k]) <= Casts(sched)
    decreases |sched|, k
  {
    if k > 0 {
      assert sched[..k][..k - 1] == sched[..k - 1];
      CastsCount(sched, k - 1);
    }
    CastsPrefix(sched, k);
  }

  lemma {:induction false} CastsPrefix(sched: seq<Call>, k: nat)
    requires k <= |sched|
    ensures Casts(sched[..k]) <= Casts(sched)
  {
    if k == |sched| {
      assert sched[..k] == sched;
    } else {
      var m := |sched| - 1;
      assert sched[..m][..k] == sched[..k];
      CastsPrefix(sched[..m], k);
    }
  }

  // The number of Broadcasts a client has behind it, which is the number of its current one.
  ghost function Asked(cfg: Config, cl: Client): nat
    requires cl.At() <= |cfg.sched|
  {
    cl.At() - Syncs(cfg.sched, cl.At())
  }

  lemma CurrentCast(cfg: Config, p: nat)
    requires p < |cfg.sched| && cfg.sched[p].Broadcast?
    ensures p - Syncs(cfg.sched, p) < |Casts(cfg.sched)|
    ensures Casts(cfg.sched)[p - Syncs(cfg.sched, p)] == cfg.sched[p]
  {
    CastsCount(cfg.sched, p);
    CastsCount(cfg.sched, p + 1);
    assert cfg.sched[..p + 1][..p] == cfg.sched[..p];
  }

  lemma {:induction false} CastsFit(sched: seq<Call>, n: nat, e: nat)
    requires (forall p :: 0 <= p < |sched| ==> Fits(sched[p], n)) && e < |Casts(sched)|
    ensures Casts(sched)[e].Broadcast? && Fits(Casts(sched)[e], n)
  {
    var k := |sched| - 1;
    if e < |Casts(sched[..k])| {
      CastsFit(sched[..k], n, e);
    }
  }

  // The root of the e-th Broadcast, and what it sends.
  ghost function RootOf(cfg: Config, e: nat): (c: nat)
    requires Sound(cfg)
    ensures c < cfg.n
  {
    if e < |Casts(cfg.sched)| then
      CastsFit(cfg.sched, cfg.n, e);
      Casts(cfg.sched)[e].root
    else 0
  }

  ghost function ValueOf(cfg: Config, e: nat): nat
    requires Sound(cfg)
  {
    if e < |Casts(cfg.sched)| then
      CastsFit(cfg.sched, cfg.n, e);
      Casts(cfg.sched)[e].values[RootOf(cfg, e)]
    else 0
  }

  // ---------------------------------------------------------------- the table of rows

  // The rows deleted so far; the row at position x is number Base + x.
  ghost function Base(g: Shared): int { g.created - |g.rows| }

  // m[c] is the number of Broadcasts in whose row client c has set its mark. A root posts its
  // value in the section in which it sets its mark.
  ghost predicate IsPosted(cfg: Config, created: nat, m: seq<nat>, e: nat)
    requires Sound(cfg) && |m| == cfg.n
  {
    e < created && e < m[RootOf(cfg, e)]
  }

  ghost predicate RowOk(cfg: Config, created: nat, m: seq<nat>, row: Row, e: nat)
    requires Sound(cfg) && |m| == cfg.n
  {
    && |row.marks| == cfg.n && row.event == e
    && (forall c :: 0 <= c < cfg.n ==> (row.marks[c] <==> e < m[c]))
    && row.value == (if IsPosted(cfg, created, m, e) then Some(ValueOf(cfg, e)) else None)
  }

  ghost predicate RowsOk(cfg: Config, g: Shared, m: seq<nat>)
    requires Sound(cfg) && |m| == cfg.n && Base(g) >= 0
  {
    forall x :: 0 <= x < |g.rows| ==> RowOk(cfg, g.created, m, g.rows[x], Base(g) + x)
  }

  ghost predicate InRange(g: Shared, m: seq<nat>) {
    forall c :: 0 <= c < |m| ==> Base(g) <= m[c] <= g.created
  }

  // The event of a row is set exactly when its root has posted, and nobody gets ahead of a root.
  ghost predicate PostsOk(cfg: Config, g: Shared, m: seq<nat>)
    requires Sound(cfg) && |m| == cfg.n
  {
    && (forall e :: e in g.posted <==> IsPosted(cfg, g.created, m, e))
    && (forall c, e {:trigger m[c], IsPosted(cfg, g.created, m, e)} ::
          0 <= c < cfg.n && 0 <= e < m[c] ==> IsPosted(cfg, g.created, m, e))
  }

  ghost predicate TableOk(cfg: Config, g: Shared, m: seq<nat>) {
    && Sound(cfg) && |m| == cfg.n && 0 <= Base(g) && g.created <= |Casts(cfg.sched)|
    && RowsOk(cfg, g, m) && InRange(g, m) && PostsOk(cfg, g, m)
  }

  // Client c marks the row of its current Broadcast, whose root has posted.
  lemma MarkTable(cfg: Config, g: Shared, m: seq<nat>, c: nat, idx: nat)
    requires TableOk(cfg, g, m) && c < cfg.n && idx < |g.rows| && m[c] == Base(g) + idx
    requires IsPosted(cfg, g.created, m, m[c])
    ensures c < |g.rows[idx].marks|
    ensures TableOk(cfg, Mark(g, idx, c), m[c := m[c] + 1])
  {
    var m', g' := m[c := m[c] + 1], Mark(g, idx, c);
    hide Sound, RootOf, ValueOf, Casts;
    forall e ensures IsPosted(cfg, g.created, m', e) <==> IsPosted(cfg, g.created, m, e) {}
    hide IsPosted;
    assert RowsOk(cfg, g', m') by {
      forall x | 0 <= x < |g'.rows| ensures RowOk(cfg, g.created, m', g'.rows[x], Base(g') + x) {
        assert RowOk(cfg, g.created, m, g.rows[x], Base(g) + x);
      }
    }
  }

  // The root of a row that is not posted yet posts its value and marks it.
  lemma PostTable(cfg: Config, g: Shared, m: seq<nat>, c: nat, idx: nat)
    requires TableOk(cfg, g, m) && c < cfg.n && idx < |g.rows| && m[c] == Base(g) + idx && c == RootOf(cfg, m[c])
    ensures c < |g.rows[idx].marks|
    ensures TableOk(cfg, Mark(Post(g, idx, ValueOf(cfg, m[c])), idx, c), m[c := m[c] + 1])
  {
    var k, m', g1 := m[c], m[c := m[c] + 1], Post(g, idx, ValueOf(cfg, m[c]));
    var g' := Mark(g1, idx, c);
    assert g.rows[idx].event == k by { assert RowOk(cfg, g.created, m, g.rows[idx], Base(g) + idx); }
    hide Sound, ValueOf, Casts;
    forall e ensures IsPosted(cfg, g.created, m', e) <==> IsPosted(cfg, g.created, m, e) || e == k {}
    hide RootOf, IsPosted;
    assert RowsOk(cfg, g', m') by {
      hide InRange, PostsOk;
      forall x | 0 <= x < |g'.rows| ensures RowOk(cfg, g.created, m', g'.rows[x], Base(g') + x) {
        PostRow(cfg, g, m, c, idx, x);
      }
    }
    hide RowsOk, RowOk;
  }

  lemma PostRow(cfg: Config, g: Shared, m: seq<nat>, c: nat, idx: nat, x: nat)
    requires Sound(cfg) && |m| == cfg.n && 0 <= Base(g) && RowsOk(cfg, g, m)
    requires c < cfg.n && idx < |g.rows| && m[c] == Base(g) + idx && x < |g.rows| && c < |g.rows[idx].marks|
    requires var m' := m[c := m[c] + 1];
      forall e :: IsPosted(cfg, g.created, m', e) <==> IsPosted(cfg, g.created, m, e) || e == m[c]
    ensures var g' := Mark(Post(g, idx, ValueOf(cfg, m[c])), idx, c);
      RowOk(cfg, g.created, m[c := m[c] + 1], g'.rows[x], Base(g) + x)
  {
    assert RowOk(cfg, g.created, m, g.rows[x], Base(g) + x);
    hide RowsOk, Sound, IsPosted, ValueOf, RootOf;
  }

  // A row is added for a Broadcast that nobody has asked for before.
  lemma OpenTable(cfg: Config, g: Shared, m: seq<nat>)
    requires TableOk(cfg, g, m) && g.created < |Casts(cfg.sched)|
    ensures TableOk(cfg, g.(rows := g.rows + [NewRow(cfg.n, g.created)], created := g.created + 1), m)
  {
    var g' := g.(rows := g.rows + [NewRow(cfg.n, g.created)], created := g.created + 1);
    hide Sound, ValueOf, Casts;
    forall e ensures IsPosted(cfg, g'.created, m, e) <==> IsPosted(cfg, g.created, m, e) {}
    assert !IsPosted(cfg, g.created, m, g.created);
    hide RootOf, IsPosted;
    assert RowsOk(cfg, g', m) by {
      forall x | 0 <= x < |g'.rows| ensures RowOk(cfg, g'.created, m, g'.rows[x], Base(g') + x) {
        if x < |g.rows| {
          assert RowOk(cfg, g.created, m, g.rows[x], Base(g) + x);
        }
      }
    }
  }

  // ---------------------------------------------------------------- cleaning up

  // How many rows at the front are complete.
  ghost function Complete(rows: seq<Row>): (k: nat)
    ensures k <= |rows|
    ensures forall x :: 0 <= x < k ==> Full(rows[x].marks)
    ensures k < |rows| ==> !Full(rows[k].marks)
  {
    if rows == [] || !Full(rows[0].marks) then 0
    else
      var k := Complete(rows[1..]);
      assert forall x :: 0 < x < k + 1 ==> rows[x] == rows[1..][x - 1];
      k + 1
  }

  lemma {:induction false} CleanupPrefix(rows: seq<Row>, k: nat)
    requires k <= |rows|
    requires forall x :: 0 <= x < k ==> Full(rows[x].marks)
    requires forall x :: k <= x < |rows| ==> !Full(rows[x].marks)
    ensures Cleanup(rows) == rows[k..]
    decreases |rows|
  {
    hide Full;
    if rows != [] {
      CleanupPrefix(rows[1..], if k > 0 then k - 1 else 0);
    }
  }

  // The marks of a client are on a prefix of the rows, so the complete rows are a prefix too, and
  // the cleanup removes just that prefix.
  lemma CleanTable(cfg: Config, g: Shared, m: seq<nat>)
    requires TableOk(cfg, g, m)
    ensures Cleanup(g.rows) == g.rows[Complete(g.rows)..]
    ensures TableOk(cfg, g.(rows := Cleanup(g.rows)), m)
  {
    var k := Complete(g.rows);
    hide Sound, ValueOf, Casts, RootOf, IsPosted, Cleanup, Complete;
    forall x | k <= x < |g.rows| ensures !Full(g.rows[x].marks) {
      assert RowOk(cfg, g.created, m, g.rows[k], Base(g) + k) && RowOk(cfg, g.created, m, g.rows[x], Base(g) + x);
    }
    CleanupPrefix(g.rows, k);
    var g' := g.(rows := Cleanup(g.rows));
    forall c | 0 <= c < |m| ensures Base(g') <= m[c] {
      if k > 0 {
        assert RowOk(cfg, g.created, m, g.rows[k - 1], Base(g) + (k - 1));
      }
    }
    assert RowsOk(cfg, g', m) by {
      forall x | 0 <= x < |g'.rows| ensures RowOk(cfg, g'.created, m, g'.rows[x], Base(g') + x) {
        assert RowOk(cfg, g.created, m, g.rows[k + x], Base(g) + (k + x));
      }
    }
  }

  lemma {:induction false} FindAt(rows: seq<Row>, rank: nat, k: nat)
    requires k <= |rows|
    requires forall x :: 0 <= x < |rows| ==> rank < |rows[x].marks|
    requires forall x :: 0 <= x < |rows| ==> (rows[x].marks[rank] <==> x < k)
    ensures Find(rows, rank) == k
    decreases |rows|
  {
    if k > 0 {
      FindAt(rows[1..], rank, k - 1);
    }
  }

  // A client finds the row whose number is the number of Broadcasts it has behind it.
  lemma FindTable(cfg: Config, g: Shared, m: seq<nat>, c: nat)
    requires TableOk(cfg, g, m) && c < cfg.n
    ensures Find(g.rows, c) == m[c] - Base(g)
  {
    hide Sound, ValueOf, Casts, RootOf, IsPosted;
    forall x | 0 <= x < |g.rows| ensures c < |g.rows[x].marks| && (g.rows[x].marks[c] <==> x < m[c] - Base(g)) {
      assert RowOk(cfg, g.created, m, g.rows[x], Base(g) + x);
    }
    FindAt(g.rows, c, m[c] - Base(g));
  }

  lemma TableRange(cfg: Config, g: Shared, m: seq<nat>, c: nat)
    requires TableOk(cfg, g, m) && c < cfg.n
    ensures |m| == cfg.n && 0 <= Base(g) <= m[c] <= g.created
  {
  }

  // The lock section up to the point where it has an index: the row there is the one of the
  // client's current Broadcast.
  lemma OpenedTable(cfg: Config, g: Shared, m: seq<nat>, c: nat)
    requires TableOk(cfg, g, m) && c < cfg.n && |m| == cfg.n && m[c] < |Casts(cfg.sched)|
    ensures TableOk(cfg, Opened(g, cfg.n, c), m)
    ensures Base(Opened(g, cfg.n, c)) == Base(g) + Complete(g.rows)
    ensures m[c] == Base(Opened(g, cfg.n, c)) + Find(Cleanup(g.rows), c)
    ensures Opened(g, cfg.n, c).created == if m[c] < g.created then g.created else g.created + 1
  {
    hide TableOk, Find, Cleanup, Casts, Complete, NewRow;
    var rows := Cleanup(g.rows);
    var g1 := g.(rows := rows);
    CleanTable(cfg, g, m);
    FindTable(cfg, g1, m, c);
    TableRange(cfg, g1, m, c);
    if Find(rows, c) == |rows| {
      OpenTable(cfg, g1, m);
    }
  }

  // The first lock section: the client gets the row of its current Broadcast, and waits only if
  // it is not the root and the root has not posted.
  lemma JoinTable(cfg: Config, g: Shared, m: seq<nat>, c: nat, root: nat, value: nat)
    requires TableOk(cfg, g, m) && c < cfg.n && |m| == cfg.n && m[c] < |Casts(cfg.sched)|
    requires root == RootOf(cfg, m[c]) && (c == root ==> value == ValueOf(cfg, m[c]))
    ensures var (g', pc) := Join(g, cfg.n, c, root, value);
      && (pc.RowRead? || pc.RowWait?) && pc.idx < |g'.rows| && m[c] == Base(g') + pc.idx
      && Base(g') == Base(g) + Complete(g.rows) && |g'.rows| >= |g.rows| - Complete(g.rows)
      && g'.created == (if m[c] < g.created then g.created else g.created + 1)
      && (pc.RowRead? ==> TableOk(cfg, g', m[c := m[c] + 1]))
      && (pc.RowWait? ==> pc.event == m[c] && TableOk(cfg, g', m) && c != root && m[c] !in g'.posted)
  {
    hide Find, Cleanup, Casts, Complete, NewRow, Sound, RootOf, ValueOf, Full;
    OpenedTable(cfg, g, m, c);
    var idx, g1 := Find(Cleanup(g.rows), c), Opened(g, cfg.n, c);
    assert |g1.rows| >= |g.rows| - Complete(g.rows);
    hide Opened;
    assert RowOk(cfg, g1.created, m, g1.rows[idx], m[c]);
    if c == root {
      PostTable(cfg, g1, m, c, idx);
    } else if g1.rows[idx].value != None {
      MarkTable(cfg, g1, m, c, idx);
    } else {
      assert !IsPosted(cfg, g1.created, m, m[c]);
    }
  }

  // ---------------------------------------------------------------- the invariant of a state

  ghost predicate Fitting(cfg: Config, s: State) {
    && Sound(cfg) && |s.clients| == cfg.n
    && (forall c :: 0 <= c < |s.clients| ==> s.clients[c].At() <= |cfg.sched|)
  }

  ghost function Marked(cfg: Config, cl: Client): nat
    requires cl.At() <= |cfg.sched|
  {
    Asked(cfg, cl) + (if cl.pc.RowRead? then 1 else 0)
  }

  ghost function MarksOf(cfg: Config, s: State): (m: seq<nat>)
    requires Fitting(cfg, s)
    ensures |m| == cfg.n && forall c :: 0 <= c < cfg.n ==> m[c] == Marked(cfg, s.clients[c])
  {
    seq(cfg.n, c requires 0 <= c < cfg.n => Marked(cfg, s.clients[c]))
  }

  // An index that a client holds names the row of its current Broadcast.
  ghost predicate HolderOk(cfg: Config, g: Shared, c: nat, cl: Client)
    requires Sound(cfg) && cl.At() <= |cfg.sched|
  {
    && (cl.Holds() ==> cl.pc.idx < |g.rows| && Asked(cfg, cl) == Base(g) + cl.pc.idx)
    && (cl.pc.RowWait? ==> cl.pc.event == Asked(cfg, cl) && c != RootOf(cfg, Asked(cfg, cl)))
    && (cl.pc == Failed ==> InSync(cfg, cl))
  }

  ghost predicate CastInv(cfg: Config, s: State) {
    && Fitting(cfg, s)
    && TableOk(cfg, s.g, MarksOf(cfg, s))
    && forall c :: 0 <= c < cfg.n ==> HolderOk(cfg, s.g, c, s.clients[c])
  }

  // A call that deletes rows while another client holds an index.
  ghost predicate Displaces(cfg: Config, s: State, c: nat) {
    && c < |s.clients| && s.clients[c].pc == Ready
    && s.clients[c].At() < |cfg.sched| && cfg.sched[s.clients[c].At()].Broadcast?
    && Cleanup(s.g.rows) != s.g.rows
    && exists d :: 0 <= d < |s.clients| && s.clients[d].Holds()
  }

  ghost predicate Stable(cfg: Config, s: State, run: seq<nat>)
    decreases |run|
  {
    run == [] || (!Displaces(cfg, s, run[0]) && Stable(cfg, Next(cfg, s, run[0]), run[1..]))
  }

  // One client moves; the rows that the others hold stay where they are.
  lemma Assemble(cfg: Config, s: State, s': State, c: nat)
    requires CastInv(cfg, s) && c < cfg.n
    requires |s'.clients| == cfg.n && s'.clients == s.clients[c := s'.clients[c]]
    requires s'.clients[c].At() <= |cfg.sched|
    requires TableOk(cfg, s'.g, MarksOf(cfg, s)[c := Marked(cfg, s'.clients[c])])
    requires HolderOk(cfg, s'.g, c, s'.clients[c])
    requires forall d :: 0 <= d < cfg.n && d != c && s.clients[d].Holds() ==>
      Base(s'.g) == Base(s.g) && |s'.g.rows| >= |s.g.rows|
    ensures CastInv(cfg, s')
  {
    hide TableOk, Sound, Marked, Asked, RootOf;
    assert Fitting(cfg, s');
    assert MarksOf(cfg, s') == MarksOf(cfg, s)[c := Marked(cfg, s'.clients[c])];
    forall d | 0 <= d < cfg.n ensures HolderOk(cfg, s'.g, d, s'.clients[d]) {
      assert HolderOk(cfg, s.g, d, s.clients[d]);
    }
  }

  // The steps that leave the rows alone: everything but the two sections of Broadcast.
  lemma QuietCastStep(cfg: Config, s: State, c: nat)
    requires SyncInv(cfg, s) && CastInv(cfg, s) && Runnable(cfg, s, c) && Enabled(cfg, s, c)
    requires s.clients[c].pc == Ready ==> !cfg.sched[s.clients[c].At()].Broadcast?
    requires !s.clients[c].pc.RowWait?
    ensures CastInv(cfg, Step(cfg, s, c))
  {
    var cl, s' := s.clients[c], Step(cfg, s, c);
    QuietClient(cfg, s, c);
    hide Sound, Marked, Asked, Base, RootOf, AllPlaced, OpenRound, Ledger, RowsOk, InRange, PostsOk, Runnable, Step,
         HolderOk;
    assert MarksOf(cfg, s)[c := Marked(cfg, s'.clients[c])] == MarksOf(cfg, s);
    SameTable(cfg, s.g, s'.g, MarksOf(cfg, s));
    Assemble(cfg, s, s', c);
  }

  ghost predicate SameRows(g: Shared, g': Shared) {
    g.rows == g'.rows && g.created == g'.created && g.posted == g'.posted
  }

  lemma SameTable(cfg: Config, g: Shared, g': Shared, m: seq<nat>)
    requires TableOk(cfg, g, m) && SameRows(g, g')
    ensures TableOk(cfg, g', m) && Base(g) == Base(g')
  {
    hide Sound, Casts, RowOk, IsPosted;
  }

  lemma QuietClient(cfg: Config, s: State, c: nat)
    requires SyncInv(cfg, s) && CastInv(cfg, s) && Runnable(cfg, s, c) && Enabled(cfg, s, c)
    requires s.clients[c].pc == Ready ==> !cfg.sched[s.clients[c].At()].Broadcast?
    requires !s.clients[c].pc.RowWait?
    ensures var s' := Step(cfg, s, c);
      && |s'.clients| == cfg.n && s'.clients == s.clients[c := s'.clients[c]]
      && SameRows(s.g, s'.g) && s'.clients[c].At() <= |cfg.sched|
      && Marked(cfg, s'.clients[c]) == Marked(cfg, s.clients[c])
      && !s'.clients[c].Holds() && HolderOk(cfg, s'.g, c, s'.clients[c])
  {
    hide TableOk, OpenRound, Ledger, RootOf, Sound, PeerOf, Via;
    var cl := s.clients[c];
    assert Placed(cfg, s.g.opId, cl) && HolderOk(cfg, s.g, c, cl);
    hide SyncInv, CastInv;
  }

  lemma WakeClient(cfg: Config, s: State, c: nat)
    requires SyncInv(cfg, s) && CastInv(cfg, s) && Runnable(cfg, s, c) && Enabled(cfg, s, c)
    requires s.clients[c].pc.RowWait?
    ensures var cl, idx, m := s.clients[c], s.clients[c].pc.idx, MarksOf(cfg, s);
      && idx < |s.g.rows| && m[c] == Base(s.g) + idx == Asked(cfg, cl)
      && IsPosted(cfg, s.g.created, m, m[c])
  {
    hide SyncInv, RowsOk, InRange, Sound, RootOf, IsPosted, Asked;
    assert HolderOk(cfg, s.g, c, s.clients[c]);
  }

  lemma WakeIs(cfg: Config, s: State, c: nat)
    requires Runnable(cfg, s, c) && s.clients[c].pc.RowWait? && s.clients[c].pc.idx < |s.g.rows|
    requires c < |s.g.rows[s.clients[c].pc.idx].marks|
    ensures var cl := s.clients[c];
      Step(cfg, s, c) == State(Mark(s.g, cl.pc.idx, c), s.clients[c := cl.(pc := RowRead(cl.pc.idx))], s.via)
  {
  }

  // The client wakes up and marks its row.
  lemma WakeStep(cfg: Config, s: State, c: nat)
    requires SyncInv(cfg, s) && CastInv(cfg, s) && Runnable(cfg, s, c) && Enabled(cfg, s, c)
    requires s.clients[c].pc.RowWait?
    ensures CastInv(cfg, Step(cfg, s, c))
  {
    hide SyncInv, Sound, RootOf, IsPosted, TableOk, Step, Enabled;
    var cl, m := s.clients[c], MarksOf(cfg, s);
    var idx := cl.pc.idx;
    WakeClient(cfg, s, c);
    MarkTable(cfg, s.g, m, c, idx);
    WakeIs(cfg, s, c);
    Assemble(cfg, s, Step(cfg, s, c), c);
  }

  lemma JoinClient(cfg: Config, s: State, c: nat)
    requires CastInv(cfg, s) && Runnable(cfg, s, c)
    requires s.clients[c].pc == Ready && cfg.sched[s.clients[c].At()].Broadcast?
    ensures var m, call := MarksOf(cfg, s), cfg.sched[s.clients[c].At()];
      && m[c] < |Casts(cfg.sched)| && call.root == RootOf(cfg, m[c])
      && (c == call.root ==> call.values[c] == ValueOf(cfg, m[c]))
  {
    hide TableOk, HolderOk;
    CurrentCast(cfg, s.clients[c].At());
  }

  lemma JoinIs(cfg: Config, s: State, c: nat)
    requires Runnable(cfg, s, c) && s.clients[c].pc == Ready && cfg.sched[s.clients[c].At()].Broadcast?
    ensures var cl, call := s.clients[c], cfg.sched[s.clients[c].At()];
      var (g', pc) := Join(s.g, cfg.n, c, call.root, call.values[c]);
      Step(cfg, s, c) == State(g', s.clients[c := cl.(pc := pc)], s.via)
  {
    hide Join;
  }

  lemma Unmoved(cfg: Config, s: State, c: nat)
    requires CastInv(cfg, s) && Runnable(cfg, s, c) && !Displaces(cfg, s, c)
    requires s.clients[c].pc == Ready && cfg.sched[s.clients[c].At()].Broadcast?
    ensures (exists d :: 0 <= d < cfg.n && s.clients[d].Holds()) ==> Complete(s.g.rows) == 0
  {
    hide TableOk, HolderOk, Cleanup, Complete, Fitting;
    CleanTable(cfg, s.g, MarksOf(cfg, s));
  }

  // A Broadcast begins, and moves no row under another client.
  lemma JoinStep(cfg: Config, s: State, c: nat)
    requires CastInv(cfg, s) && Runnable(cfg, s, c) && !Displaces(cfg, s, c)
    requires s.clients[c].pc == Ready && cfg.sched[s.clients[c].At()].Broadcast?
    ensures CastInv(cfg, Step(cfg, s, c))
  {
    hide Casts, TableOk, Join, RootOf, ValueOf, Sound, Cleanup, Complete, Displaces, Step;
    var cl, m := s.clients[c], MarksOf(cfg, s);
    var call := cfg.sched[cl.At()];
    JoinClient(cfg, s, c);
    Unmoved(cfg, s, c);
    JoinTable(cfg, s.g, m, c, call.root, call.values[c]);
    JoinIs(cfg, s, c);
    assert m[c := m[c]] == m;
    Assemble(cfg, s, Step(cfg, s, c), c);
  }

  lemma StepKeepsCast(cfg: Config, s: State, c: nat)
    requires SyncInv(cfg, s) && CastInv(cfg, s) && Runnable(cfg, s, c) && Enabled(cfg, s, c) && !Displaces(cfg, s, c)
    ensures CastInv(cfg, Step(cfg, s, c))
  {
    hide SyncInv, CastInv, Displaces, Step;
    if s.clients[c].pc.RowWait? {
      WakeStep(cfg, s, c);
    } else if s.clients[c].pc == Ready && cfg.sched[s.clients[c].At()].Broadcast? {
      JoinStep(cfg, s, c);
    } else {
      QuietCastStep(cfg, s, c);
    }
  }
}
