// When every Broadcast returns the root's value, and when it may not.

module ControllerAgreement {
  import opened Wrappers
  import opened ControllerModel
  import opened ControllerSync
  import opened ControllerCasts

  // Every Broadcast the client has completed returned what its root sent.
  ghost predicate RightAnswers(cfg: Config, cl: Client)
    requires Sound(cfg) && cl.At() <= |cfg.sched|
  {
    forall j :: 0 <= j < |cl.got| && cfg.sched[j].Broadcast? ==>
      cl.got[j] == Value(Some(cfg.sched[j].values[cfg.sched[j].root]))
  }

  ghost predicate Agree(cfg: Config, s: State) {
    Fitting(cfg, s) && forall c :: 0 <= c < cfg.n ==> RightAnswers(cfg, s.clients[c])
  }

  // What a client reads outside the lock: the value of its row.
  lemma ReadsValue(cfg: Config, s: State, c: nat)
    requires SyncInv(cfg, s) && CastInv(cfg, s) && c < cfg.n && s.clients[c].pc.RowRead?
    ensures var cl := s.clients[c];
      && cl.At() < |cfg.sched| && cfg.sched[cl.At()].Broadcast? && cl.pc.idx < |s.g.rows|
      && Fits(cfg.sched[cl.At()], cfg.n)
      && s.g.rows[cl.pc.idx].value == Some(cfg.sched[cl.At()].values[cfg.sched[cl.At()].root])
  {
    var cl, m := s.clients[c], MarksOf(cfg, s);
    assert Placed(cfg, s.g.opId, cl) && HolderOk(cfg, s.g, c, cl);
    CurrentCast(cfg, cl.At());
    var e := Asked(cfg, cl);
    hide SyncInv, Asked, Casts, InRange;
    assert m[c] == e + 1;
    assert IsPosted(cfg, s.g.created, m, e);
    assert RowOk(cfg, s.g.created, m, s.g.rows[cl.pc.idx], Base(s.g) + cl.pc.idx);
  }

  // A step appends at most one answer, and only a read answers a Broadcast.
  lemma StepGot(cfg: Config, s: State, c: nat)
    requires SyncInv(cfg, s) && Runnable(cfg, s, c) && Enabled(cfg, s, c)
    ensures var cl, s' := s.clients[c], Step(cfg, s, c);
      && |s'.clients| == |s.clients| && (forall d :: 0 <= d < |s.clients| && d != c ==> s'.clients[d] == s.clients[d])
      && (s'.clients[c].got == cl.got
          || (|s'.clients[c].got| == |cl.got| + 1 && s'.clients[c].got[..|cl.got|] == cl.got
              && (cfg.sched[cl.At()].Broadcast? ==>
                    cl.pc.RowRead? && cl.pc.idx < |s.g.rows|
                        && s'.clients[c].got[|cl.got|] == Value(s.g.rows[cl.pc.idx].value))))
  {
    hide OpenRound, Ledger, Enter, PeerOf, Leave, Via, Mark;
    assert Placed(cfg, s.g.opId, s.clients[c]);
  }

  // One more right answer.
  lemma OneMoreRight(cfg: Config, cl: Client, cl': Client)
    requires Sound(cfg) && cl.At() < |cfg.sched| && RightAnswers(cfg, cl)
    requires |cl'.got| == |cl.got| + 1 && cl'.got[..|cl.got|] == cl.got
    requires var call := cfg.sched[cl.At()];
      call.Broadcast? ==> Fits(call, cfg.n) && cl'.got[|cl.got|] == Value(Some(call.values[call.root]))
    ensures RightAnswers(cfg, cl')
  {
    hide Sound;
    assert forall j :: 0 <= j < |cl.got| ==> cl'.got[j] == cl.got[j];
  }

  lemma StepAgrees(cfg: Config, s: State, c: nat)
    requires SyncInv(cfg, s) && CastInv(cfg, s) && Agree(cfg, s) && Runnable(cfg, s, c) && Enabled(cfg, s, c)
    ensures Agree(cfg, Step(cfg, s, c))
  {
    StepGot(cfg, s, c);
    if s.clients[c].pc.RowRead? {
      ReadsValue(cfg, s, c);
    }
    assert RightAnswers(cfg, s.clients[c]);
    hide SyncInv, CastInv, Sound, Step, Enabled, RightAnswers;
    var s' := Step(cfg, s, c);
    assert s'.clients[c].At() <= |cfg.sched| && RightAnswers(cfg, s'.clients[c]) by {
      if s'.clients[c].got == s.clients[c].got {
        SameRight(cfg, s.clients[c], s'.clients[c]);
      } else {
        OneMoreRight(cfg, s.clients[c], s'.clients[c]);
      }
    }
  }

  lemma SameRight(cfg: Config, cl: Client, cl': Client)
    requires Sound(cfg) && cl.At() <= |cfg.sched| && RightAnswers(cfg, cl) && cl'.got == cl.got
    ensures RightAnswers(cfg, cl')
  {
  }

  lemma InitAgrees(cfg: Config)
    requires Sound(cfg)
    ensures SyncInv(cfg, Init(cfg)) && CastInv(cfg, Init(cfg)) && Agree(cfg, Init(cfg))
  {
    InitSync(cfg);
    var s := Init(cfg);
    var m := MarksOf(cfg, s);
    assert forall e :: !IsPosted(cfg, 0, m, e);
    assert TableOk(cfg, s.g, m);
  }

  lemma {:induction false} StableRun(cfg: Config, s: State, run: seq<nat>)
    requires SyncInv(cfg, s) && CastInv(cfg, s) && Agree(cfg, s) && Legal(cfg, s, run) && Stable(cfg, s, run)
    ensures var e := Run(cfg, s, run); SyncInv(cfg, e) && CastInv(cfg, e) && Agree(cfg, e)
    decreases |run|
  {
    if run != [] {
      assert Sound(cfg);
      hide SyncInv, CastInv, Agree, Displaces, Sound, Step, Enabled, Runnable;
      CanAct(cfg, s, run[0]);
      StepKeepsSync(cfg, s, run[0]);
      StepKeepsCast(cfg, s, run[0]);
      StepAgrees(cfg, s, run[0]);
      StableRun(cfg, Next(cfg, s, run[0]), run[1..]);
    }
  }

  // What arrives at the client is then what its root sent, 0 included.
  lemma RightOnWire(cfg: Config, s: State, c: nat, j: nat)
    requires Agree(cfg, s) && c < cfg.n && j < |s.clients[c].got| && cfg.sched[j].Broadcast?
    ensures j < |cfg.sched| && cfg.sched[j].root < |cfg.sched[j].values| && s.clients[c].got[j].Value?
    ensures OnWire(s.clients[c].got[j].value) == cfg.sched[j].values[cfg.sched[j].root]
  {
    assert RightAnswers(cfg, s.clients[c]);
  }

  // While no row is deleted under a client that holds an index, every Broadcast, back to back or
  // not, returns the value of its root; the j-th Broadcast of a client has the j-th row ever
  // created; and its marks are on a prefix of the live rows, so that the cleanup removes a prefix.
  lemma StableAgreement(cfg: Config, run: seq<nat>, c: nat)
    requires Sound(cfg) && c < cfg.n
    requires Legal(cfg, Init(cfg), run) && Stable(cfg, Init(cfg), run)
    ensures Agree(cfg, Run(cfg, Init(cfg), run))
    ensures var s := Run(cfg, Init(cfg), run);
      var cl := s.clients[c];
      && cl.At() <= |cfg.sched|
      && (cl.Holds() ==> cl.pc.idx < |s.g.rows| && s.g.rows[cl.pc.idx].event == Asked(cfg, cl))
      && (forall x :: 0 <= x < |s.g.rows| ==> c < |s.g.rows[x].marks|)
      && (forall x, y :: 0 <= x < y < |s.g.rows| && s.g.rows[y].marks[c] ==> s.g.rows[x].marks[c])
      && Cleanup(s.g.rows) == s.g.rows[Complete(s.g.rows)..]
  {
    hide SyncInv, CastInv, Agree, Legal, Stable, Run, Cleanup, Complete, Asked;
    InitAgrees(cfg);
    StableRun(cfg, Init(cfg), run);
    var s := Run(cfg, Init(cfg), run);
    CastFacts(cfg, s, c);
    HoldersName(cfg, s, c);
  }

  lemma CastFacts(cfg: Config, s: State, c: nat)
    requires CastInv(cfg, s) && c < cfg.n
    ensures Fitting(cfg, s) && Cleanup(s.g.rows) == s.g.rows[Complete(s.g.rows)..]
    ensures forall x :: 0 <= x < |s.g.rows| ==> c < |s.g.rows[x].marks|
    ensures forall x, y :: 0 <= x < y < |s.g.rows| && s.g.rows[y].marks[c] ==> s.g.rows[x].marks[c]
  {
    hide Cleanup, Complete, TableOk, Marked, HolderOk;
    var m := MarksOf(cfg, s);
    CleanTable(cfg, s.g, m);
    forall x | 0 <= x < |s.g.rows|
      ensures c < |s.g.rows[x].marks| && (s.g.rows[x].marks[c] <==> Base(s.g) + x < m[c])
    {
      RowMark(cfg, s.g, m, x, c);
    }
  }

  lemma RowMark(cfg: Config, g: Shared, m: seq<nat>, x: nat, c: nat)
    requires TableOk(cfg, g, m) && |m| == cfg.n && x < |g.rows| && c < cfg.n
    ensures c < |g.rows[x].marks| && (g.rows[x].marks[c] <==> Base(g) + x < m[c])
  {
    assert RowOk(cfg, g.created, m, g.rows[x], Base(g) + x);
  }

  // ---------------------------------------------------------------- when the condition fails

  // The index that client d holds names the row of its Broadcast.
  ghost predicate NamesRow(cfg: Config, s: State, d: nat)
    requires Fitting(cfg, s) && d < cfg.n
  {
    var cl := s.clients[d];
    cl.Holds() ==> cl.pc.idx < |s.g.rows| && s.g.rows[cl.pc.idx].event == Asked(cfg, cl)
  }

  lemma HoldersName(cfg: Config, s: State, d: nat)
    requires CastInv(cfg, s) && d < cfg.n
    ensures NamesRow(cfg, s, d)
  {
    assert HolderOk(cfg, s.g, d, s.clients[d]);
    if s.clients[d].Holds() {
      assert RowOk(cfg, s.g.created, MarksOf(cfg, s), s.g.rows[s.clients[d].pc.idx], Base(s.g) + s.clients[d].pc.idx);
    }
  }

  // What a Broadcast that begins does to the table, stable or not.
  lemma Joins(cfg: Config, s: State, c: nat) returns (m: seq<nat>)
    requires CastInv(cfg, s) && Runnable(cfg, s, c)
    requires s.clients[c].pc == Ready && cfg.sched[s.clients[c].At()].Broadcast?
    ensures var s' := Step(cfg, s, c);
      && TableOk(cfg, s'.g, m) && Base(s'.g) == Base(s.g) + Complete(s.g.rows)
      && Fitting(cfg, s') && forall d :: 0 <= d < cfg.n && d != c ==> s'.clients[d] == s.clients[d]
  {
    hide Casts, TableOk, Join, RootOf, ValueOf, Sound, Cleanup, Complete, Step;
    m := MarksOf(cfg, s);
    var call := cfg.sched[s.clients[c].At()];
    JoinClient(cfg, s, c);
    JoinTable(cfg, s.g, m, c, call.root, call.values[c]);
    JoinIs(cfg, s, c);
    if Join(s.g, cfg.n, c, call.root, call.values[c]).1.RowRead? {
      m := m[c := m[c] + 1];
    }
  }

  // After a deletion every index held by another client names a later row, or none.
  lemma Displaced(cfg: Config, s: State, c: nat, d: nat)
    requires CastInv(cfg, s) && Runnable(cfg, s, c) && Displaces(cfg, s, c)
    requires d < cfg.n && s.clients[d].Holds()
    ensures Fitting(cfg, Step(cfg, s, c)) && !NamesRow(cfg, Step(cfg, s, c), d)
  {
    hide TableOk, Cleanup, Complete, Step, Asked, RootOf;
    assert HolderOk(cfg, s.g, d, s.clients[d]);
    CleanTable(cfg, s.g, MarksOf(cfg, s));
    assert Complete(s.g.rows) > 0;
    var m := Joins(cfg, s, c);
    RowNumber(cfg, Step(cfg, s, c).g, m, s.clients[d].pc.idx);
  }

  lemma RowNumber(cfg: Config, g: Shared, m: seq<nat>, x: nat)
    requires TableOk(cfg, g, m)
    ensures x < |g.rows| ==> g.rows[x].event == Base(g) + x
  {
    if x < |g.rows| {
      assert RowOk(cfg, g.created, m, g.rows[x], Base(g) + x);
    }
  }

  // So the condition is exact: a step takes the row away from some client's index if and only if
  // it deletes rows while another client holds an index.
  lemma StableIffNamed(cfg: Config, s: State, c: nat)
    requires SyncInv(cfg, s) && CastInv(cfg, s) && Runnable(cfg, s, c) && Enabled(cfg, s, c)
    ensures Fitting(cfg, Step(cfg, s, c))
    ensures !Displaces(cfg, s, c) <==> forall d :: 0 <= d < cfg.n ==> NamesRow(cfg, Step(cfg, s, c), d)
  {
    hide SyncInv, NamesRow, Step, Runnable, Enabled;
    if Displaces(cfg, s, c) {
      var d :| 0 <= d < |s.clients| && s.clients[d].Holds();
      Displaced(cfg, s, c, d);
    } else {
      hide Displaces;
      StepKeepsCast(cfg, s, c);
      forall d | 0 <= d < cfg.n ensures NamesRow(cfg, Step(cfg, s, c), d) {
        HoldersName(cfg, Step(cfg, s, c), d);
      }
    }
  }

  // ---------------------------------------------------------------- separated schedules

  ghost predicate BackToBack(sched: seq<Call>, p: nat) {
    0 < p < |sched| && sched[p].Broadcast? && sched[p - 1].Broadcast?
  }

  // Between two Broadcasts there is always a Barrier or an RdmaSession.
  ghost predicate Separated(sched: seq<Call>) {
    forall p :: 0 <= p < |sched| ==> !BackToBack(sched, p)
  }

  ghost predicate OneRow(s: State) {
    |s.g.rows| <= 1 && forall c :: 0 <= c < |s.clients| && s.clients[c].Holds() ==> s.clients[c].pc.idx == 0
  }

  // Client c begins a Broadcast: everyone who holds an index is in the same call, and nobody has
  // Broadcasts behind that c has not.
  ghost predicate Together(cfg: Config, s: State, c: nat) {
    && |s.clients| == cfg.n && c < cfg.n
    && (forall d :: 0 <= d < cfg.n && s.clients[d].Holds() ==> s.clients[d].At() == s.clients[c].At())
    && (forall d :: 0 <= d < cfg.n ==> s.clients[c].At() <= |cfg.sched| && s.clients[d].At() <= |cfg.sched|
                                       && Asked(cfg, s.clients[c]) <= Asked(cfg, s.clients[d]))
  }

  ghost predicate Begins(cfg: Config, s: State, c: nat) {
    c < |s.clients| && s.clients[c].pc == Ready && s.clients[c].At() < |cfg.sched|
        && cfg.sched[s.clients[c].At()].Broadcast?
  }

  // With a Barrier or an RdmaSession before each of the two calls, a client that begins a
  // Broadcast while another is in one is in the same call.
  lemma SamePlace(cfg: Config, s: State, c: nat, d: nat)
    requires SyncInv(cfg, s) && c < cfg.n && d < cfg.n
    requires s.clients[c].At() < |cfg.sched| && cfg.sched[s.clients[c].At()].Broadcast?
    requires s.clients[d].At() < |cfg.sched| && cfg.sched[s.clients[d].At()].Broadcast?
    requires !BackToBack(cfg.sched, s.clients[c].At()) && !BackToBack(cfg.sched, s.clients[d].At())
    ensures s.clients[c].At() == s.clients[d].At()
  {
    assert |s.clients| == cfg.n;
    hide SyncInv;
    var p, q := s.clients[c].At(), s.clients[d].At();
    if q < p {
      NoneBehind(cfg, s, c, d, p - 1);
    } else if p < q {
      NoneBehind(cfg, s, d, c, q - 1);
    }
  }

  // By the time a client begins a Broadcast, everyone has marked the rows of the earlier ones.
  lemma EarlierMarked(cfg: Config, s: State, c: nat, d: nat)
    requires SyncInv(cfg, s) && c < cfg.n && d < cfg.n
    requires s.clients[c].At() < |cfg.sched| && cfg.sched[s.clients[c].At()].Broadcast?
    requires !BackToBack(cfg.sched, s.clients[c].At())
    ensures s.clients[d].At() <= |cfg.sched| && Asked(cfg, s.clients[c]) <= Asked(cfg, s.clients[d])
  {
    var p, q := s.clients[c].At(), s.clients[d].At();
    assert Placed(cfg, s.g.opId, s.clients[d]);
    hide SyncInv;
    if p > 0 {
      NoneBehind(cfg, s, c, d, p - 1);
      SyncsMonotone(cfg.sched, p - 1, q);
    }
  }

  lemma KeptTogether(cfg: Config, s: State, c: nat)
    requires SyncInv(cfg, s) && Begins(cfg, s, c)
    requires forall d :: 0 <= d < cfg.n ==> !BackToBack(cfg.sched, s.clients[d].At())
    ensures Together(cfg, s, c)
  {
    assert |s.clients| == cfg.n;
    forall d | 0 <= d < cfg.n
      ensures s.clients[d].At() <= |cfg.sched| && Asked(cfg, s.clients[c]) <= Asked(cfg, s.clients[d])
      ensures s.clients[d].Holds() ==> s.clients[d].At() == s.clients[c].At()
    {
      assert Placed(cfg, s.g.opId, s.clients[d]);
      EarlierMarked(cfg, s, c, d);
      if s.clients[d].Holds() {
        SamePlace(cfg, s, c, d);
      }
    }
  }

  lemma CleanupOne(rows: seq<Row>)
    requires |rows| <= 1
    ensures Cleanup(rows) == if rows != [] && !Full(rows[0].marks) then rows else []
  {
    if rows != [] {
      assert rows[1..] == [] && Cleanup(rows[1..]) == [];
    }
  }

  lemma KeepsRow(cfg: Config, s: State, c: nat, d: nat)
    requires CastInv(cfg, s) && OneRow(s) && c < cfg.n && d < cfg.n
    requires Begins(cfg, s, c) && s.clients[d].Holds() && s.clients[d].At() == s.clients[c].At()
    ensures Cleanup(s.g.rows) == s.g.rows
  {
    var m := MarksOf(cfg, s);
    assert HolderOk(cfg, s.g, d, s.clients[d]);
    hide Cleanup, Complete, Asked, Casts, InRange, PostsOk, Sound;
    assert RowOk(cfg, s.g.created, m, s.g.rows[0], Base(s.g) + 0);
    assert Asked(cfg, s.clients[c]) == Asked(cfg, s.clients[d]);
    assert m[c] == Base(s.g);
    CleanupOne(s.g.rows);
  }

  // A Broadcast that keeps together deletes no row that someone holds an index to.
  lemma NeverDisplaces(cfg: Config, s: State, c: nat)
    requires CastInv(cfg, s) && OneRow(s) && (Begins(cfg, s, c) ==> Together(cfg, s, c))
    ensures !Displaces(cfg, s, c)
  {
    assert |s.clients| == cfg.n;
    hide CastInv, OneRow, Cleanup;
    if Begins(cfg, s, c) {
      forall d | 0 <= d < cfg.n && s.clients[d].Holds() ensures Cleanup(s.g.rows) == s.g.rows {
        KeepsRow(cfg, s, c, d);
      }
    }
  }

  // The one row that is left after the cleanup is one that the client has not marked.
  lemma FindsFirst(cfg: Config, s: State, c: nat)
    requires CastInv(cfg, s) && OneRow(s) && Begins(cfg, s, c) && Together(cfg, s, c)
    ensures Find(Cleanup(s.g.rows), c) == 0 && |Cleanup(s.g.rows)| <= 1
  {
    var m := MarksOf(cfg, s);
    assert forall d :: 0 <= d < cfg.n ==> m[c] <= m[d];
    hide Asked, Casts, PostsOk, InRange, Sound, Fitting, Cleanup, Marked, Together;
    CleanupOne(s.g.rows);
    if s.g.rows != [] {
      assert RowOk(cfg, s.g.created, m, s.g.rows[0], Base(s.g) + 0);
    }
  }

  // The steps that begin no Broadcast keep the rows in number and the indices in place.
  lemma SameIndices(cfg: Config, s: State, c: nat)
    requires SyncInv(cfg, s) && Runnable(cfg, s, c)
    requires s.clients[c].pc == Ready ==> !cfg.sched[s.clients[c].At()].Broadcast?
    ensures var s' := Step(cfg, s, c);
      && |s'.g.rows| == |s.g.rows| && |s'.clients| == |s.clients|
      && (forall d :: 0 <= d < |s.clients| && d != c ==> s'.clients[d] == s.clients[d])
      && (s'.clients[c].Holds() ==> s.clients[c].Holds() && s'.clients[c].pc.idx == s.clients[c].pc.idx)
  {
    hide SyncInv, Lookup, PeerOf, Via, Keyed;
  }

  lemma JoinOne(g: Shared, n: nat, c: nat, root: nat, value: nat)
    requires Find(Cleanup(g.rows), c) == 0 && |Cleanup(g.rows)| <= 1
    ensures var (g', pc) := Join(g, n, c, root, value);
      |g'.rows| <= 1 && ((pc.RowWait? || pc.RowRead?) ==> pc.idx == 0)
  {
    hide Find, Cleanup;
  }

  lemma StepKeepsOneRow(cfg: Config, s: State, c: nat)
    requires SyncInv(cfg, s) && CastInv(cfg, s) && OneRow(s) && Runnable(cfg, s, c)
    requires Begins(cfg, s, c) ==> Together(cfg, s, c)
    ensures OneRow(Step(cfg, s, c))
  {
    hide SyncInv, CastInv, Find, Cleanup, Together, Step, Join;
    if Begins(cfg, s, c) {
      var call := cfg.sched[s.clients[c].At()];
      FindsFirst(cfg, s, c);
      JoinOne(s.g, cfg.n, c, call.root, call.values[c]);
      JoinIs(cfg, s, c);
    } else {
      SameIndices(cfg, s, c);
    }
  }

  lemma SeparatedTogether(cfg: Config, s: State, c: nat)
    requires SyncInv(cfg, s) && Separated(cfg.sched)
    ensures Begins(cfg, s, c) ==> Together(cfg, s, c)
  {
    if Begins(cfg, s, c) {
      forall d | 0 <= d < cfg.n ensures !BackToBack(cfg.sched, s.clients[d].At()) {
        if s.clients[d].At() < |cfg.sched| {
          assert !BackToBack(cfg.sched, s.clients[d].At());
        }
      }
      hide SyncInv, BackToBack;
      KeptTogether(cfg, s, c);
    }
  }

  lemma {:induction false} SeparatedRun(cfg: Config, s: State, run: seq<nat>)
    requires SyncInv(cfg, s) && CastInv(cfg, s) && OneRow(s) && Separated(cfg.sched) && Legal(cfg, s, run)
    ensures Stable(cfg, s, run) && OneRow(Run(cfg, s, run))
    decreases |run|
  {
    if run != [] {
      assert Sound(cfg);
      hide SyncInv, CastInv, OneRow, Displaces, Sound, Step, Enabled, Runnable, Separated, Together, Begins;
      CanAct(cfg, s, run[0]);
      SeparatedTogether(cfg, s, run[0]);
      NeverDisplaces(cfg, s, run[0]);
      StepKeepsSync(cfg, s, run[0]);
      StepKeepsCast(cfg, s, run[0]);
      StepKeepsOneRow(cfg, s, run[0]);
      SeparatedRun(cfg, Next(cfg, s, run[0]), run[1..]);
    }
  }

  // With a Barrier or an RdmaSession between any two Broadcasts, every run agrees: each client's
  // k-th Broadcast returned the value of the k-th root, and at most one row was live throughout.
  lemma SeparatedAgreement(cfg: Config, run: seq<nat>)
    requires Sound(cfg) && Separated(cfg.sched) && Legal(cfg, Init(cfg), run)
    ensures Stable(cfg, Init(cfg), run) && OneRow(Run(cfg, Init(cfg), run))
    ensures Agree(cfg, Run(cfg, Init(cfg), run))
  {
    InitAgrees(cfg);
    SeparatedRun(cfg, Init(cfg), run);
    StableRun(cfg, Init(cfg), run);
  }
}
