// The rows of the Broadcasts in any run, with or without displaced indices.

module ControllerRows {
  import opened Wrappers
  import opened ControllerModel
  import opened ControllerSync
  import opened ControllerRounds

  // ---------------------------------------------------------------- what holds of the rows

  ghost predicate RowShape(n: nat, created: nat, posted: set<nat>, w: Row) {
    |w.marks| == n && w.event < created && (w.value.Some? <==> w.event in posted)
  }

  // Rows are numbered in the order in which they were created.
  ghost predicate Ascending(rows: seq<Row>) {
    forall x, y :: 0 <= x < y < |rows| ==> rows[x].event < rows[y].event
  }

  ghost predicate Consistent(n: nat, g: Shared) {
    && (forall x :: 0 <= x < |g.rows| ==> RowShape(n, g.created, g.posted, g.rows[x]))
    && Ascending(g.rows)
    && (forall e :: e in g.posted ==> e < g.created)
  }

  lemma {:induction false} CleanupKeeps(rows: seq<Row>)
    requires Ascending(rows)
    ensures Ascending(Cleanup(rows))
    ensures forall w :: w in Cleanup(rows) <==> w in rows && !Full(w.marks)
  {
    if rows != [] {
      var rest := rows[1..];
      assert rows == [rows[0]] + rest;
      CleanupKeeps(rest);
      hide Full, Ascending;
      assert forall w :: w in rows <==> w == rows[0] || w in rest;
      AscendingCons(rows[0], rest, Cleanup(rest));
    }
  }

  lemma AscendingCons(w: Row, rest: seq<Row>, some: seq<Row>)
    requires Ascending([w] + rest) && Ascending(some) && forall v :: v in some ==> v in rest
    ensures Ascending([w] + some) && Ascending(rest)
  {
    var all := [w] + rest;
    forall v | v in some ensures w.event < v.event {
      var i :| 0 <= i < |rest| && rest[i] == v;
      assert all[0].event < all[i + 1].event;
    }
    assert forall x :: 0 <= x < |rest| ==> rest[x] == all[x + 1];
    assert forall x :: 0 <= x < |some| ==> some[x] in some;
  }

  lemma {:induction false} FindFirst(rows: seq<Row>, c: nat)
    requires forall x :: 0 <= x < |rows| ==> c < |rows[x].marks|
    ensures forall x :: 0 <= x < Find(rows, c) ==> rows[x].marks[c]
    ensures Find(rows, c) < |rows| ==> !rows[Find(rows, c)].marks[c]
  {
    if rows != [] && rows[0].marks[c] {
      FindFirst(rows[1..], c);
    }
  }

  lemma CleanupOk(n: nat, g: Shared)
    requires Consistent(n, g)
    ensures Consistent(n, g.(rows := Cleanup(g.rows)))
  {
    CleanupKeeps(g.rows);
    hide Full, Ascending, RowShape;
    forall x | 0 <= x < |Cleanup(g.rows)| ensures RowShape(n, g.created, g.posted, Cleanup(g.rows)[x]) {
      assert Cleanup(g.rows)[x] in g.rows;
    }
  }

  lemma OpenedOk(n: nat, g: Shared, c: nat)
    requires Consistent(n, g)
    ensures Consistent(n, Opened(g, n, c))
  {
    CleanupOk(n, g);
    hide Cleanup, Find;
  }

  lemma MarkOk(n: nat, g: Shared, x: nat, c: nat)
    requires Consistent(n, g) && x < |g.rows| && c < |g.rows[x].marks|
    ensures Consistent(n, Mark(g, x, c))
  {
  }

  lemma PostOk(n: nat, g: Shared, x: nat, v: nat)
    requires Consistent(n, g) && x < |g.rows|
    ensures Consistent(n, Post(g, x, v))
  {
    forall y | 0 <= y < |g.rows| && y != x ensures g.rows[y].event != g.rows[x].event {
      assert y < x ==> g.rows[y].event < g.rows[x].event;
      assert x < y ==> g.rows[x].event < g.rows[y].event;
    }
  }

  lemma JoinOk(n: nat, g: Shared, c: nat, root: nat, v: nat)
    requires Consistent(n, g) && c < n
    ensures Consistent(n, Join(g, n, c, root, v).0)
  {
    var idx, g1 := Find(Cleanup(g.rows), c), Opened(g, n, c);
    OpenedOk(n, g, c);
    assert RowShape(n, g1.created, g1.posted, g1.rows[idx]);
    PostOk(n, g1, idx, v);
    hide Consistent, Opened, Find, Cleanup;
    MarkOk(n, g1, idx, c);
    MarkOk(n, Post(g1, idx, v), idx, c);
  }

  lemma SameRows(n: nat, g: Shared, g': Shared)
    requires Consistent(n, g) && g'.rows == g.rows && g'.created == g.created && g'.posted == g.posted
    ensures Consistent(n, g')
  {
  }

  lemma StepKeepsRows(cfg: Config, s: State, c: nat)
    requires Consistent(cfg.n, s.g) && Runnable(cfg, s, c)
    ensures Consistent(cfg.n, Step(cfg, s, c).g)
  {
    var cl := s.clients[c];
    var call := cfg.sched[cl.At()];
    var g' := Step(cfg, s, c).g;
    if cl.pc == Ready && call.Broadcast? {
      JoinOk(cfg.n, s.g, c, call.root, call.values[c]);
      hide Consistent, Join;
    } else if cl.pc.RowWait? && cl.pc.idx < |s.g.rows| {
      assert RowShape(cfg.n, s.g.created, s.g.posted, s.g.rows[cl.pc.idx]);
      MarkOk(cfg.n, s.g, cl.pc.idx, c);
      hide Consistent, Mark;
    } else {
      hide Consistent, PeerOf, Via;
      SameRows(cfg.n, s.g, g');
    }
  }

  lemma {:induction false} RunKeepsRows(cfg: Config, s: State, run: seq<nat>)
    requires Consistent(cfg.n, s.g)
    ensures Consistent(cfg.n, Run(cfg, s, run).g)
    decreases |run|
  {
    hide Consistent, Step, Enabled;
    if run != [] {
      if Runnable(cfg, s, run[0]) {
        StepKeepsRows(cfg, s, run[0]);
      }
      RunKeepsRows(cfg, Next(cfg, s, run[0]), run[1..]);
    }
  }

  lemma InitRows(cfg: Config)
    ensures Consistent(cfg.n, Init(cfg).g)
  {
  }

  // ---------------------------------------------------------------- what a Broadcast does to them

  // The complete rows are gone and all others are as they were, apart from the one at idx.
  ghost predicate KeptRows(g: Shared, g': Shared, idx: nat) {
    && (forall y :: 0 <= y < |g'.rows| && y != idx ==> g'.rows[y] in g.rows && !Full(g'.rows[y].marks))
    && (forall w :: w in g.rows && !Full(w.marks) ==>
          w in g'.rows || (idx < |g'.rows| && g'.rows[idx].event == w.event))
    && Ascending(g'.rows)
  }

  // The row at idx is the first that the client has not marked, or a new one.
  ghost predicate ItsRow(n: nat, g: Shared, g': Shared, idx: nat, c: nat, before: Row)
    requires forall x :: 0 <= x < |g'.rows| ==> |g'.rows[x].marks| == n
    requires c < n == |before.marks|
  {
    && idx < |g'.rows| && g'.rows[idx].event == before.event && !before.marks[c]
    && (forall y :: 0 <= y < idx ==> g'.rows[y].marks[c])
    && (if g'.created == g.created then before in g.rows && !Full(before.marks)
        else before == NewRow(n, g.created) && g'.created == g.created + 1 && idx == |g'.rows| - 1)
  }

  // The two outcomes of the search: a row that is there, or one more.
  lemma OldRow(n: nat, g: Shared, rows: seq<Row>, idx: nat, c: nat)
    requires forall w :: w in rows <==> w in g.rows && !Full(w.marks)
    requires forall x :: 0 <= x < |rows| ==> |rows[x].marks| == n
    requires Ascending(rows) && c < n && idx < |rows| && !rows[idx].marks[c]
    requires forall x :: 0 <= x < idx ==> rows[x].marks[c]
    ensures var g1 := g.(rows := rows); KeptRows(g, g1, idx) && ItsRow(n, g, g1, idx, c, rows[idx])
  {
    hide Full, Ascending;
  }

  lemma AddedRow(n: nat, g: Shared, rows: seq<Row>, c: nat)
    requires forall w :: w in rows <==> w in g.rows && !Full(w.marks)
    requires forall x :: 0 <= x < |rows| ==> |rows[x].marks| == n && rows[x].event < g.created
    requires Ascending(rows) && c < n
    requires forall x :: 0 <= x < |rows| ==> rows[x].marks[c]
    ensures var g1 := g.(rows := rows + [NewRow(n, g.created)], created := g.created + 1);
      && (forall x :: 0 <= x < |g1.rows| ==> |g1.rows[x].marks| == n)
      && KeptRows(g, g1, |rows|) && ItsRow(n, g, g1, |rows|, c, NewRow(n, g.created))
  {
    hide Full;
    var g1 := g.(rows := rows + [NewRow(n, g.created)], created := g.created + 1);
    forall y | 0 <= y < |g1.rows| && y != |rows| ensures g1.rows[y] in rows {
      assert g1.rows[y] == rows[y];
    }
  }

  lemma FoundRow(n: nat, g: Shared, c: nat)
    requires Consistent(n, g) && c < n
    ensures var g1, idx := Opened(g, n, c), Find(Cleanup(g.rows), c);
      && Consistent(n, g1) && |g1.rows[idx].marks| == n && g1.posted == g.posted
      && (forall x :: 0 <= x < |g1.rows| ==> |g1.rows[x].marks| == n)
      && KeptRows(g, g1, idx) && ItsRow(n, g, g1, idx, c, g1.rows[idx])
  {
    OpenedOk(n, g, c);
    CleanupOk(n, g);
    CleanupKeeps(g.rows);
    FoundShape(n, g.(rows := Cleanup(g.rows)));
    FoundShape(n, Opened(g, n, c));
    var rows := Cleanup(g.rows);
    FindFirst(rows, c);
    hide Consistent, Cleanup, Full, Find, Ascending, NewRow, KeptRows, ItsRow;
    if Find(rows, c) < |rows| {
      OldRow(n, g, rows, Find(rows, c), c);
    } else {
      AddedRow(n, g, rows, c);
    }
  }

  lemma FoundShape(n: nat, g: Shared)
    requires Consistent(n, g)
    ensures forall x :: 0 <= x < |g.rows| ==> |g.rows[x].marks| == n && g.rows[x].event < g.created
  {
    forall x | 0 <= x < |g.rows| ensures |g.rows[x].marks| == n && g.rows[x].event < g.created {
      assert RowShape(n, g.created, g.posted, g.rows[x]);
    }
  }

  // What the client does to its row.
  lemma RowAfter(n: nat, g: Shared, c: nat, root: nat, v: nat)
    requires Consistent(n, g) && c < n
    ensures var (g1, idx) := (Opened(g, n, c), Find(Cleanup(g.rows), c));
      var before, g', pc := g1.rows[idx], Join(g, n, c, root, v).0, Join(g, n, c, root, v).1;
      && Consistent(n, g1) && Consistent(n, g') && |before.marks| == n && g'.created == g1.created
      && g'.rows == g1.rows[idx := g'.rows[idx]] && g'.rows[idx].event == before.event
      && (if c == root then
            pc == RowRead(idx) && g'.rows[idx].value == Some(v) && g'.rows[idx].marks == before.marks[c := true]
          else if before.event in g.posted then
            pc == RowRead(idx) && g'.rows[idx] == before.(marks := before.marks[c := true])
          else
            pc == RowWait(idx, before.event) && g'.rows[idx] == before)
  {
    OpenedOk(n, g, c);
    JoinOk(n, g, c, root, v);
    var idx, g1 := Find(Cleanup(g.rows), c), Opened(g, n, c);
    assert RowShape(n, g1.created, g1.posted, g1.rows[idx]);
    assert g1.posted == g.posted;
    hide Consistent, Opened, Find, Cleanup;
  }

  lemma KeptUpdate(g: Shared, g1: Shared, g': Shared, idx: nat)
    requires idx < |g1.rows| == |g'.rows| && KeptRows(g, g1, idx) && g'.rows == g1.rows[idx := g'.rows[idx]]
    requires g'.rows[idx].event == g1.rows[idx].event
    ensures KeptRows(g, g', idx)
  {
    hide Full;
    forall w | w in g.rows && !Full(w.marks) ensures w in g'.rows || g'.rows[idx].event == w.event {
      if w in g1.rows {
        var x :| 0 <= x < |g1.rows| && g1.rows[x] == w;
        assert x != idx ==> g'.rows[x] == w;
      }
    }
  }

  // Whether and how the client is through with its first lock section.
  ghost predicate Entered(call: Call, c: nat, before: Row, posted: set<nat>, after: Row, pc: Pc, idx: nat)
    requires call.Broadcast? && c < |call.values| && c < |before.marks|
  {
    if c == call.root then
      pc == RowRead(idx) && after == Row(before.marks[c := true], Some(call.values[c]), before.event)
    else if before.event in posted then
      pc == RowRead(idx) && after == before.(marks := before.marks[c := true])
    else
      pc == RowWait(idx, before.event) && after == before
  }

  ghost predicate AtBroadcast(cfg: Config, s: State, c: nat) {
    && c < |s.clients| && s.clients[c].pc == Ready && s.clients[c].At() < |cfg.sched|
    && cfg.sched[s.clients[c].At()].Broadcast? && c < |cfg.sched[s.clients[c].At()].values|
  }

  lemma JoinRow(n: nat, g: Shared, c: nat, call: Call) returns (idx: nat, before: Row)
    requires Consistent(n, g) && c < n && call.Broadcast? && c < |call.values|
    ensures var (g', pc) := Join(g, n, c, call.root, call.values[c]);
      && Consistent(n, g') && |before.marks| == n
      && (forall x :: 0 <= x < |g'.rows| ==> |g'.rows[x].marks| == n)
      && KeptRows(g, g', idx) && ItsRow(n, g, g', idx, c, before)
      && Entered(call, c, before, g.posted, g'.rows[idx], pc, idx)
  {
    FoundRow(n, g, c);
    RowAfter(n, g, c, call.root, call.values[c]);
    var g1, g' := Opened(g, n, c), Join(g, n, c, call.root, call.values[c]).0;
    idx := Find(Cleanup(g.rows), c);
    before := g1.rows[idx];
    FoundShape(n, g');
    hide Consistent, Opened, Find, Cleanup, Join, Full;
    KeptUpdate(g, g1, g', idx);
  }

  // The entry into a Broadcast, in any reachable state, whether or not an index has been displaced
  // before: all complete rows go, all others stay in place and order; the client takes the first
  // row that it has not marked, or a new one behind them, as `before`; and it touches no other.
  lemma EntersBroadcast(cfg: Config, run: seq<nat>, c: nat) returns (idx: nat, before: Row)
    requires Sound(cfg) && Legal(cfg, Init(cfg), run + [c]) && c < cfg.n
    requires AtBroadcast(cfg, Run(cfg, Init(cfg), run), c)
    ensures var s, s' := Run(cfg, Init(cfg), run), Run(cfg, Init(cfg), run + [c]);
      && |before.marks| == cfg.n && c < |s'.clients| && s'.clients[c].got == s.clients[c].got
      && (forall x :: 0 <= x < |s'.g.rows| ==> |s'.g.rows[x].marks| == cfg.n)
      && KeptRows(s.g, s'.g, idx) && ItsRow(cfg.n, s.g, s'.g, idx, c, before)
      && Entered(cfg.sched[s.clients[c].At()], c, before, s.g.posted, s'.g.rows[idx], s'.clients[c].pc, idx)
  {
    var s := Run(cfg, Init(cfg), run);
    NextRun(cfg, run, c);
    InitRows(cfg);
    RunKeepsRows(cfg, Init(cfg), run);
    CanAct(cfg, s, c);
    idx, before := JoinRow(cfg.n, s.g, c, cfg.sched[s.clients[c].At()]);
    EntersStep(cfg, s, c);
    hide Consistent, Join, Full, Sound, SyncInv, Run, Legal, Init, Step, Enabled, Runnable, KeptRows, ItsRow, Entered;
  }

  lemma EntersStep(cfg: Config, s: State, c: nat)
    requires AtBroadcast(cfg, s, c) && Runnable(cfg, s, c)
    ensures var call := cfg.sched[s.clients[c].At()];
      var (g', pc) := Join(s.g, cfg.n, c, call.root, call.values[c]);
      Step(cfg, s, c).g == g' && Step(cfg, s, c).clients == s.clients[c := s.clients[c].(pc := pc)]
  {
    hide Join;
  }

  // In any run, a root that goes straight on gets the value it sent.
  lemma RootGetsItsOwn(cfg: Config, run: seq<nat>, c: nat)
    requires Sound(cfg) && Legal(cfg, Init(cfg), run + [c]) && c < cfg.n
    requires var s := Run(cfg, Init(cfg), run);
      AtBroadcast(cfg, s, c) && cfg.sched[s.clients[c].At()].root == c
    ensures Legal(cfg, Init(cfg), run + [c] + [c])
    ensures var s, s' := Run(cfg, Init(cfg), run), Run(cfg, Init(cfg), run + [c] + [c]);
      var cl := s.clients[c];
      c < |s'.clients| && s'.clients[c] == Client(Ready, cl.got + [Value(Some(cfg.sched[cl.At()].values[c]))])
  {
    var idx, before := EntersBroadcast(cfg, run, c);
    NextRun(cfg, run + [c], c);
    var s1 := Run(cfg, Init(cfg), run + [c]);
    assert Enabled(cfg, s1, c);
    CanAct(cfg, s1, c);
    hide SyncInv, Run, Legal, Sound, Init;
  }

  // After the wait, in any run: a client is released when its own row is posted, but marks whichever
  // row has its index by then, and raises an exception if there is none.
  lemma WaitsForRow(cfg: Config, run: seq<nat>, c: nat, idx: nat, e: nat)
    requires Sound(cfg) && Legal(cfg, Init(cfg), run) && c < cfg.n
    requires c < |Run(cfg, Init(cfg), run).clients| && Run(cfg, Init(cfg), run).clients[c].pc == RowWait(idx, e)
    ensures Legal(cfg, Init(cfg), run + [c]) <==> e in Run(cfg, Init(cfg), run).g.posted
    ensures var s, s' := Run(cfg, Init(cfg), run), Run(cfg, Init(cfg), run + [c]);
      e in s.g.posted ==>
        && |s'.clients| == |s.clients| && s'.clients[c].got == s.clients[c].got
        && (if idx < |s.g.rows| then
              && s'.clients[c].pc == RowRead(idx) && |s.g.rows[idx].marks| == cfg.n
              && s'.g.rows == s.g.rows[idx := s.g.rows[idx].(marks := s.g.rows[idx].marks[c := true])]
            else
              s'.clients[c].pc == Failed && s'.g == s.g)
  {
    var s := Run(cfg, Init(cfg), run);
    NextRun(cfg, run, c);
    InitRows(cfg);
    RunKeepsRows(cfg, Init(cfg), run);
    FoundShape(cfg.n, s.g);
    if e in s.g.posted {
      CanAct(cfg, s, c);
    }
    hide SyncInv, Run, Legal, Sound, Init, Consistent;
  }

  // And it answers with what the row at its index holds when it looks, or raises an exception.
  lemma ReadsAtIndex(cfg: Config, run: seq<nat>, c: nat, idx: nat)
    requires Sound(cfg) && Legal(cfg, Init(cfg), run) && c < cfg.n
    requires c < |Run(cfg, Init(cfg), run).clients| && Run(cfg, Init(cfg), run).clients[c].pc == RowRead(idx)
    ensures Legal(cfg, Init(cfg), run + [c])
    ensures var s, s' := Run(cfg, Init(cfg), run), Run(cfg, Init(cfg), run + [c]);
      && |s'.clients| == |s.clients| && s'.g == s.g
      && s'.clients[c] == if idx < |s.g.rows| then Client(Ready, s.clients[c].got + [Value(s.g.rows[idx].value)])
                          else Client(Failed, s.clients[c].got)
  {
    var s := Run(cfg, Init(cfg), run);
    NextRun(cfg, run, c);
    CanAct(cfg, s, c);
    hide SyncInv, Run, Legal, Sound, Init;
  }
}
