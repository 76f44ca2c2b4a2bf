// Exactly when the clients always get through: a Broadcast that deletes rows under an index can
// also leave the index out of range, and then the handler raises an exception.

module ControllerStuck {
  import opened Wrappers
  import opened ControllerModel
  import opened ControllerSync
  import opened ControllerCasts
  import opened ControllerAgreement
  import opened ControllerSessions
  import opened ControllerProgress
  import opened ControllerPacing
  import opened ControllerLimits

  // ---------------------------------------------------------------- an index out of range

  // One more step of a stable run that deletes nothing.
  ghost predicate Quietly(cfg: Config, s: State, x: nat) {
    Runnable(cfg, s, x) && Enabled(cfg, s, x) && !Displaces(cfg, s, x)
  }

  ghost predicate Tidy(cfg: Config, s: State) {
    Sound(cfg) && SyncInv(cfg, s) && CastInv(cfg, s)
  }

  lemma QuietlyTidy(cfg: Config, s: State, x: nat)
    requires Tidy(cfg, s) && Quietly(cfg, s, x)
    ensures Tidy(cfg, Step(cfg, s, x))
  {
    hide SyncInv, CastInv, Sound, Step, Enabled, Runnable, Displaces;
    StepKeepsSync(cfg, s, x);
    StepKeepsCast(cfg, s, x);
  }

  lemma ReadyEnabled(cfg: Config, s: State, x: nat, a: nat)
    requires x < |s.clients| && s.clients[x].pc == Ready && s.clients[x].At() < |cfg.sched|
    requires forall d :: 0 <= d < |s.clients| && d != a ==> s.clients[d].pc == Ready
    ensures Enabled(cfg, s, x)
  {
    assert BusyClients(s) <= {a};
    Subset(BusyClients(s), {a});
  }

  // Nobody but h has yet to begin call p - 1: its row is the only one, and lacks h's mark alone.
  lemma RowOfLast(cfg: Config, s: State, p: nat, h: nat)
    requires CastInv(cfg, s) && OneRow(s) && OneLeft(cfg, s, p, h, Early)
    requires 0 < p < |cfg.sched| && cfg.sched[p - 1].Broadcast? && h != cfg.sched[p - 1].root
    ensures var e := Asked(cfg, s.clients[h]);
      && |s.g.rows| == 1 && Base(s.g) == e && s.g.created == e + 1 && Complete(s.g.rows) == 0
          && Cleanup(s.g.rows) == s.g.rows
      && forall d :: 0 <= d < cfg.n ==> MarksOf(cfg, s)[d] == if d == h then e else e + 1
  {
    var m, e := MarksOf(cfg, s), Asked(cfg, s.clients[h]);
    assert Syncs(cfg.sched, p) == Syncs(cfg.sched, p - 1);
    CurrentCast(cfg, p - 1);
    var root := cfg.sched[p - 1].root;
    assert root == RootOf(cfg, e) && root < cfg.n && m[root] == e + 1 && m[h] == e;
    forall d | 0 <= d < cfg.n ensures m[d] == if d == h then e else e + 1 {}
    OnlyRow(cfg, s.g, m, root, h);
    hide TableOk, HolderOk;
    CleanTable(cfg, s.g, m);
  }

  lemma OnlyRow(cfg: Config, g: Shared, m: seq<nat>, root: nat, h: nat)
    requires TableOk(cfg, g, m) && |m| == cfg.n && root < cfg.n && h < cfg.n && m[root] == m[h] + 1 && |g.rows| <= 1
    ensures |g.rows| == 1 && Base(g) == m[h] && g.created == m[h] + 1 && Complete(g.rows) == 0
  {
    hide Sound, PostsOk, Casts;
    assert Base(g) <= m[h] && m[root] <= g.created;
    assert RowOk(cfg, g.created, m, g.rows[0], Base(g) + 0);
  }

  // Client a begins call p: its row is the second one.
  lemma SecondRow(cfg: Config, s: State, p: nat, h: nat, a: nat)
    requires Tidy(cfg, s) && OneRow(s) && OneLeft(cfg, s, p, h, Early) && a < cfg.n && a != h
    requires BackToBack(cfg.sched, p) && h != cfg.sched[p - 1].root
    ensures Quietly(cfg, s, a)
    ensures var s1, e := Step(cfg, s, a), Asked(cfg, s.clients[h]);
      && |s1.clients| == cfg.n && s1.clients == s.clients[a := s1.clients[a]]
      && Base(s1.g) == e && s1.g.created == e + 2 && s1.clients[a].Holds() && s1.clients[a].At() == p
  {
    RowOfLast(cfg, s, p, h);
    ReadyEnabled(cfg, s, a, a);
    assert Fits(cfg.sched[p], cfg.n) by { assert Sound(cfg); }
    var m, call := MarksOf(cfg, s), cfg.sched[p];
    JoinClient(cfg, s, a);
    hide Tidy, SyncInv, CastInv, TableOk, OneRow, Complete, Cleanup, Join, Step, Asked, RootOf, ValueOf, Casts,
         BusyClients;
    JoinTable(cfg, s.g, m, a, call.root, call.values[a]);
    JoinIs(cfg, s, a);
  }

  // The number of call p among the Broadcasts.
  ghost function Number(cfg: Config, p: nat): nat
    requires p <= |cfg.sched|
  {
    p - Syncs(cfg.sched, p)
  }

  // Client a is in call p and holds the index of its row, which is the second one; nobody but h has
  // yet to come there.
  ghost predicate Poised(cfg: Config, s: State, p: nat, h: nat, a: nat) {
    && Tidy(cfg, s) && |s.clients| == cfg.n && a < cfg.n && h < cfg.n && a != h && BackToBack(cfg.sched, p)
    && s.clients[a].Holds() && s.clients[a].At() == p
    && (forall d :: 0 <= d < cfg.n && d != a && d != h ==> s.clients[d].pc == Ready && s.clients[d].At() == p)
    && Base(s.g) == Number(cfg, p - 1) && s.g.created == Number(cfg, p - 1) + 2
  }

  lemma PoisedFirst(cfg: Config, s: State, s1: State, p: nat, h: nat, a: nat)
    requires OneLeft(cfg, s, p, h, Early) && a < cfg.n && a != h && BackToBack(cfg.sched, p) && Tidy(cfg, s1)
    requires |s1.clients| == cfg.n && s1.clients == s.clients[a := s1.clients[a]]
    requires s1.clients[a].Holds() && s1.clients[a].At() == p
    requires Base(s1.g) == Number(cfg, p - 1) && s1.g.created == Number(cfg, p - 1) + 2
    ensures Poised(cfg, s1, p, h, a) && s1.clients[h].pc == Ready && s1.clients[h].At() == p - 1
  {
    hide Tidy, Base, Number;
  }

  lemma PoisedNext(cfg: Config, s: State, s1: State, p: nat, h: nat, a: nat)
    requires Poised(cfg, s, p, h, a) && Tidy(cfg, s1)
    requires |s1.clients| == cfg.n && s1.clients == s.clients[h := s1.clients[h]]
    requires Base(s1.g) == Base(s.g) && s1.g.created == s.g.created
    ensures Poised(cfg, s1, p, h, a) && s1.clients[a] == s.clients[a]
  {
    hide Tidy, Base, Number, BackToBack;
  }

  lemma GetsPoised(cfg: Config, s: State, p: nat, h: nat, a: nat)
    requires Tidy(cfg, s) && OneRow(s) && OneLeft(cfg, s, p, h, Early) && a < cfg.n && a != h
    requires BackToBack(cfg.sched, p) && h != cfg.sched[p - 1].root
    ensures Quietly(cfg, s, a) && Poised(cfg, Step(cfg, s, a), p, h, a)
    ensures Step(cfg, s, a).clients[h].pc == Ready && Step(cfg, s, a).clients[h].At() == p - 1
  {
    assert s.clients[h].At() == p - 1 && Asked(cfg, s.clients[h]) == Number(cfg, p - 1);
    SecondRow(cfg, s, p, h, a);
    hide Tidy, OneRow, OneLeft, Step, Enabled, Displaces, Runnable, Asked, Number, Base;
    QuietlyTidy(cfg, s, a);
    PoisedFirst(cfg, s, Step(cfg, s, a), p, h, a);
  }

  // The marks of the clients: everyone but h has marked the first row.
  lemma PoisedMarks(cfg: Config, s: State, p: nat, h: nat, a: nat)
    requires Poised(cfg, s, p, h, a)
    ensures CastInv(cfg, s) && forall d :: 0 <= d < cfg.n && d != h ==> MarksOf(cfg, s)[d] > Number(cfg, p - 1)
    ensures s.clients[h].pc == Ready && s.clients[h].At() == p - 1 ==> MarksOf(cfg, s)[h] == Number(cfg, p - 1)
    ensures s.clients[h].pc == Ready && s.clients[h].At() == p ==> MarksOf(cfg, s)[h] == Number(cfg, p - 1) + 1
    ensures Number(cfg, p) == Number(cfg, p - 1) + 1
  {
    hide SyncInv, TableOk, HolderOk, Sound, Base;
    assert Syncs(cfg.sched, p) == Syncs(cfg.sched, p - 1);
  }

  // With a client that has not marked the first row, no row is complete.
  lemma NothingComplete(cfg: Config, s: State, h: nat)
    requires CastInv(cfg, s) && h < cfg.n && MarksOf(cfg, s)[h] == Base(s.g)
    ensures Complete(s.g.rows) == 0 && Cleanup(s.g.rows) == s.g.rows
  {
    CleanTable(cfg, s.g, MarksOf(cfg, s));
    hide Sound, PostsOk, Cleanup, Casts, InRange;
    if s.g.rows != [] {
      assert RowOk(cfg, s.g.created, MarksOf(cfg, s), s.g.rows[0], Base(s.g) + 0);
    }
  }

  lemma BeginsQuietly(cfg: Config, s: State, p: nat, h: nat, a: nat)
    requires Poised(cfg, s, p, h, a) && s.clients[h].pc == Ready && s.clients[h].At() == p - 1
    requires h != cfg.sched[p - 1].root
    ensures Quietly(cfg, s, h) && Complete(s.g.rows) == 0 && Step(cfg, s, h).clients[h].pc.RowRead?
  {
    var call := cfg.sched[p - 1];
    assert Fits(call, cfg.n) by { assert Sound(cfg); }
    PoisedMarks(cfg, s, p, h, a);
    hide CastInv, Tidy, Asked, Marked, Cleanup, Complete, Step, BusyClients, Number;
    NothingComplete(cfg, s, h);
    ReadyEnabled(cfg, s, h, a);
    RootAhead(cfg, s, p, h, a);
    NoWait(cfg, s, h);
  }

  lemma RootAhead(cfg: Config, s: State, p: nat, h: nat, a: nat)
    requires Poised(cfg, s, p, h, a) && s.clients[h].pc == Ready && s.clients[h].At() == p - 1
    requires h != cfg.sched[p - 1].root && cfg.sched[p - 1].root < cfg.n
    ensures s.clients[h].At() <= |cfg.sched| && s.clients[cfg.sched[p - 1].root].At() <= |cfg.sched|
    ensures Asked(cfg, s.clients[h]) < Marked(cfg, s.clients[cfg.sched[p - 1].root])
  {
    PoisedMarks(cfg, s, p, h, a);
    assert MarksOf(cfg, s)[h] == Asked(cfg, s.clients[h]);
    hide TableOk, Number, Asked, Marked, SyncInv;
  }

  lemma BeginsSame(cfg: Config, s: State, p: nat, h: nat, a: nat)
    requires Poised(cfg, s, p, h, a) && s.clients[h].pc == Ready && s.clients[h].At() == p - 1
    requires Complete(s.g.rows) == 0 && Runnable(cfg, s, h)
    ensures var s' := Step(cfg, s, h);
      && |s'.clients| == cfg.n && s'.clients == s.clients[h := s'.clients[h]] && s'.clients[h].At() == p - 1
      && Base(s'.g) == Base(s.g) && s'.g.created == s.g.created
  {
    var m, call := MarksOf(cfg, s), cfg.sched[p - 1];
    JoinClient(cfg, s, h);
    assert m[h] < s.g.created;
    hide Tidy, SyncInv, CastInv, TableOk, Complete, Cleanup, Join, Step, Asked, RootOf, ValueOf, Casts, Marked;
    JoinTable(cfg, s.g, m, h, call.root, call.values[h]);
    JoinIs(cfg, s, h);
  }

  // Client h begins call p - 1, whose root has posted.
  lemma BeginsLate(cfg: Config, s: State, p: nat, h: nat, a: nat)
    requires Poised(cfg, s, p, h, a) && s.clients[h].pc == Ready && s.clients[h].At() == p - 1
    requires h != cfg.sched[p - 1].root
    ensures Quietly(cfg, s, h) && Poised(cfg, Step(cfg, s, h), p, h, a)
    ensures var cl := Step(cfg, s, h).clients[h]; cl.pc.RowRead? && cl.At() == p - 1
    ensures Step(cfg, s, h).clients[a] == s.clients[a]
  {
    hide Tidy, Step, Complete, Enabled, Displaces, Base;
    BeginsQuietly(cfg, s, p, h, a);
    BeginsSame(cfg, s, p, h, a);
    QuietlyTidy(cfg, s, h);
    PoisedNext(cfg, s, Step(cfg, s, h), p, h, a);
  }

  lemma ReadsQuietly(cfg: Config, s: State, h: nat)
    requires Tidy(cfg, s) && h < cfg.n == |s.clients| && s.clients[h].pc.RowRead? && s.clients[h].At() < |cfg.sched|
    ensures Quietly(cfg, s, h)
    ensures var s' := Step(cfg, s, h);
      && s'.g == s.g && |s'.clients| == cfg.n && s'.clients == s.clients[h := s'.clients[h]]
      && s'.clients[h].pc == Ready && s'.clients[h].At() == s.clients[h].At() + 1
  {
    assert HolderOk(cfg, s.g, h, s.clients[h]);
    assert Fits(cfg.sched[s.clients[h].At()], cfg.n) by { assert Sound(cfg); }
    hide Tidy;
  }

  lemma ReadsLate(cfg: Config, s: State, p: nat, h: nat, a: nat)
    requires Poised(cfg, s, p, h, a) && s.clients[h].pc.RowRead? && s.clients[h].At() == p - 1
    ensures Quietly(cfg, s, h) && Poised(cfg, Step(cfg, s, h), p, h, a)
    ensures Step(cfg, s, h).clients[h].pc == Ready && Step(cfg, s, h).clients[h].At() == p
    ensures Step(cfg, s, h).clients[a] == s.clients[a]
  {
    hide Tidy, Step, Enabled, Displaces, Base;
    ReadsQuietly(cfg, s, h);
    QuietlyTidy(cfg, s, h);
    PoisedNext(cfg, s, Step(cfg, s, h), p, h, a);
  }

  lemma DeletesTable(cfg: Config, s: State, p: nat, h: nat, root: nat, value: nat, m: seq<nat>)
    requires Sound(cfg) && TableOk(cfg, s.g, m) && |m| == cfg.n && h < cfg.n && m[h] < |Casts(cfg.sched)|
    requires root == RootOf(cfg, m[h]) && (h == root ==> value == ValueOf(cfg, m[h]))
    requires |s.g.rows| == 2 && m[h] == Base(s.g) + 1 && s.g.created == Base(s.g) + 2 && Complete(s.g.rows) == 1
    ensures var g := Join(s.g, cfg.n, h, root, value).0;
      |g.rows| == 1 && (h == root ==> m[h] in g.posted)
  {
    hide Sound, TableOk, Complete, Join, RootOf, ValueOf, Casts;
    JoinTable(cfg, s.g, m, h, root, value);
    if h == root {
      RootPosts(cfg, Join(s.g, cfg.n, h, root, value).0, m[h := m[h] + 1], m[h]);
    }
  }

  lemma PoisedFacts(cfg: Config, s: State, p: nat, h: nat, a: nat)
    requires Poised(cfg, s, p, h, a) && s.clients[h].pc == Ready && s.clients[h].At() == p
    ensures Sound(cfg) && CastInv(cfg, s) && p < |cfg.sched| && cfg.sched[p].Broadcast? && Runnable(cfg, s, h)
      && Enabled(cfg, s, h)
    ensures |s.g.rows| == 2 && Base(s.g) == Number(cfg, p - 1) && s.g.created == Base(s.g) + 2
  {
    assert Fits(cfg.sched[p], cfg.n) by { assert Sound(cfg); }
    ReadyEnabled(cfg, s, h, a);
    hide SyncInv, CastInv, Sound, BusyClients;
  }

  // Client h begins call p: the first row is complete now and is deleted.
  lemma DeletesFirst(cfg: Config, s: State, p: nat, h: nat, a: nat)
    requires Poised(cfg, s, p, h, a) && s.clients[h].pc == Ready && s.clients[h].At() == p
    ensures Runnable(cfg, s, h) && Enabled(cfg, s, h)
    ensures var s' := Step(cfg, s, h);
      && |s'.clients| == cfg.n && s'.clients[a] == s.clients[a] && |s'.g.rows| == 1
      && (h == cfg.sched[p].root ==> Number(cfg, p) in s'.g.posted)
  {
    PoisedHolds(cfg, s, p, h, a);
    hide Poised, Tidy, Sound, TableOk, HolderOk, Complete, Join, Step, RootOf, ValueOf, Casts, Enabled, Number, Base;
    PoisedFacts(cfg, s, p, h, a);
    PoisedMarks(cfg, s, p, h, a);
    OneComplete(cfg, s, p, h, a);
    var m, call := MarksOf(cfg, s), cfg.sched[p];
    JoinClient(cfg, s, h);
    DeletesTable(cfg, s, p, h, call.root, call.values[h], m);
    JoinIs(cfg, s, h);
  }

  lemma RootPosts(cfg: Config, g: Shared, m: seq<nat>, e: nat)
    requires TableOk(cfg, g, m) && |m| == cfg.n && Sound(cfg) && e < m[RootOf(cfg, e)] && e < g.created
    ensures e in g.posted
  {
    assert IsPosted(cfg, g.created, m, e);
  }

  lemma OneComplete(cfg: Config, s: State, p: nat, h: nat, a: nat)
    requires Poised(cfg, s, p, h, a) && s.clients[h].pc == Ready && s.clients[h].At() == p
    ensures Complete(s.g.rows) == 1
  {
    PoisedMarks(cfg, s, p, h, a);
    OneFull(cfg, s.g, MarksOf(cfg, s), h);
  }

  lemma OneFull(cfg: Config, g: Shared, m: seq<nat>, h: nat)
    requires TableOk(cfg, g, m) && |m| == cfg.n && h < cfg.n && |g.rows| == 2 && m[h] == Base(g) + 1
    requires forall d :: 0 <= d < cfg.n ==> m[d] > Base(g)
    ensures Complete(g.rows) == 1
  {
    hide Sound, PostsOk, Casts, InRange;
    assert RowOk(cfg, g.created, m, g.rows[0], Base(g) + 0);
    assert RowOk(cfg, g.created, m, g.rows[1], Base(g) + 1);
  }

  // What client a holds is the index 1, and if it waits, it waits for the event of call p.
  lemma HoldsSecond(cfg: Config, s: State, p: nat, h: nat, a: nat)
    requires Poised(cfg, s, p, h, a)
    ensures s.clients[a].pc.idx == 1
    ensures s.clients[a].pc.RowWait? ==> s.clients[a].pc.event == Number(cfg, p) && a != cfg.sched[p].root
  {
    assert Syncs(cfg.sched, p) == Syncs(cfg.sched, p - 1);
    assert HolderOk(cfg, s.g, a, s.clients[a]);
    CurrentCast(cfg, p);
    hide TableOk;
  }

  // The index is out of range.
  lemma RaisesError(cfg: Config, s: State, a: nat)
    requires |s.clients| == cfg.n && a < cfg.n && s.clients[a].Holds() && s.clients[a].At() < |cfg.sched|
    requires Fits(cfg.sched[s.clients[a].At()], cfg.n)
    requires s.clients[a].pc.idx >= |s.g.rows|
    requires s.clients[a].pc.RowWait? ==> s.clients[a].pc.event in s.g.posted
    ensures Runnable(cfg, s, a) && Enabled(cfg, s, a) && Step(cfg, s, a).clients[a].pc == Failed
  {
  }

  lemma ThreeMore(cfg: Config, s: State, a: nat, h: nat)
    requires Runnable(cfg, s, a) && Enabled(cfg, s, a)
    requires var s1 := Step(cfg, s, a); Runnable(cfg, s1, h) && Enabled(cfg, s1, h)
    requires var s2 := Step(cfg, Step(cfg, s, a), h); Runnable(cfg, s2, h) && Enabled(cfg, s2, h)
    ensures Legal(cfg, s, [a, h, h])
    ensures Run(cfg, s, [a, h, h]) == Step(cfg, Step(cfg, Step(cfg, s, a), h), h)
  {
    hide Enabled, Runnable, Step;
    var s1 := Step(cfg, s, a);
    var two: seq<nat>, three: seq<nat> := [h, h], [a, h, h];
    assert three[1..] == two && Next(cfg, s, a) == s1;
    TwoMore(cfg, s1, h, h);
    assert Legal(cfg, s, three) && Run(cfg, s, three) == Run(cfg, s1, two);
  }

  // Wherever two clients or more can get to two Broadcasts in a row, in some run a handler raises
  // an exception: one client waits before the first of the two until all the others are through
  // it, and another has begun the second.
  lemma IndexError(cfg: Config, p: nat) returns (run: seq<nat>, a: nat)
    requires Sound(cfg) && 2 <= cfg.n && BackToBack(cfg.sched, p) && OpenTo(cfg, p)
    ensures Legal(cfg, Init(cfg), run) && SyncInv(cfg, Run(cfg, Init(cfg), run))
    ensures var s := Run(cfg, Init(cfg), run); a < |s.clients| && s.clients[a].pc == Failed
  {
    var h := if cfg.sched[p - 1].root == 0 then 1 else 0;
    assert Fits(cfg.sched[p - 1], cfg.n) && Fits(cfg.sched[p], cfg.n);
    a := if h == cfg.sched[p].root then cfg.sched[p - 1].root else cfg.sched[p].root;
    hide Sound, Step, Enabled, Runnable, Init, Stable, Legal, Run, OpenTo, Good, OneRow, OneLeft, Poised, Tidy, SyncInv;
    var start := PacedFromStart(cfg, p, h, Early);
    var s := Run(cfg, Init(cfg), start);
    GoodTidy(cfg, s);
    GetsPoised(cfg, s, p, h, a);
    var s1 := Step(cfg, s, a);
    BeginsLate(cfg, s1, p, h, a);
    var s2 := Step(cfg, s1, h);
    ReadsLate(cfg, s2, p, h, a);
    var s3 := Step(cfg, s2, h);
    HoldsSecond(cfg, s3, p, h, a);
    DeletesFirst(cfg, s3, p, h, a);
    var s4 := Step(cfg, s3, h);
    PoisedHolds(cfg, s3, p, h, a);
    RaisesError(cfg, s4, a);
    ThreeMore(cfg, s, a, h);
    TwoMore(cfg, s3, h, a);
    RunConcat(cfg, Init(cfg), start, [a, h, h]);
    RunConcat(cfg, Init(cfg), start + [a, h, h], [h, a]);
    run := start + [a, h, h] + [h, a];
    Reachable(cfg, run);
    StepSize(cfg, s4, a);
  }

  lemma GoodTidy(cfg: Config, s: State)
    requires Good(cfg, s)
    ensures Tidy(cfg, s) && OneRow(s)
  {
  }

  lemma PoisedHolds(cfg: Config, s: State, p: nat, h: nat, a: nat)
    requires Poised(cfg, s, p, h, a)
    ensures a < |s.clients| == cfg.n && h < cfg.n && a != h && s.clients[a].Holds() && s.clients[a].At() == p
  {
  }

  // ---------------------------------------------------------------- runs that end early

  ghost predicate Stuck(cfg: Config, s: State) {
    !AllDone(cfg, s) && forall c :: !Enabled(cfg, s, c)
  }

  lemma FailedStays(cfg: Config, s: State, x: nat, a: nat)
    requires SyncInv(cfg, s) && Runnable(cfg, s, x) && Enabled(cfg, s, x)
    requires a < |s.clients| && s.clients[a].pc == Failed
    ensures a < |Step(cfg, s, x).clients| && Step(cfg, s, x).clients[a] == s.clients[a]
  {
    Moves(cfg, s, x);
    SyncSize(cfg, s);
    hide SyncInv, Step;
  }

  // Every run comes to an end where nobody can step. A client that has failed stays so.
  lemma {:induction false} RunsOut(cfg: Config, s: State) returns (run: seq<nat>)
    requires Sound(cfg) && SyncInv(cfg, s) && Total(s.clients) <= 4 * |cfg.sched| * cfg.n
    ensures Legal(cfg, s, run) && SyncInv(cfg, Run(cfg, s, run))
    ensures forall c :: !Enabled(cfg, Run(cfg, s, run), c)
    ensures forall a :: 0 <= a < |s.clients| && s.clients[a].pc == Failed ==>
      a < |Run(cfg, s, run).clients| && Run(cfg, s, run).clients[a].pc == Failed
    decreases 4 * |cfg.sched| * cfg.n - Total(s.clients)
  {
    hide Sound, SyncInv, Step, Enabled, Runnable, Total;
    if x: nat :| Enabled(cfg, s, x) {
      CanAct(cfg, s, x);
      StepKeepsSync(cfg, s, x);
      StepAdvances(cfg, s, x);
      TotalAtMost(cfg, Step(cfg, s, x));
      forall a | 0 <= a < |s.clients| && s.clients[a].pc == Failed
        ensures a < |Step(cfg, s, x).clients| && Step(cfg, s, x).clients[a].pc == Failed
      {
        FailedStays(cfg, s, x, a);
      }
      var more := RunsOut(cfg, Step(cfg, s, x));
      run := [x] + more;
      assert run[1..] == more;
    } else {
      run := [];
    }
  }

  lemma RunsOutFrom(cfg: Config, start: seq<nat>) returns (run: seq<nat>)
    requires Sound(cfg) && Legal(cfg, Init(cfg), start)
    ensures Legal(cfg, Init(cfg), run)
    ensures var s, e := Run(cfg, Init(cfg), start), Run(cfg, Init(cfg), run);
      && (forall c :: !Enabled(cfg, e, c))
      && (forall a :: 0 <= a < |s.clients| && s.clients[a].pc == Failed ==>
          a < |e.clients| && e.clients[a].pc == Failed)
  {
    hide Sound, SyncInv, Enabled, Legal, Run, Total, Init;
    Reachable(cfg, start);
    var s := Run(cfg, Init(cfg), start);
    TotalAtMost(cfg, s);
    var more := RunsOut(cfg, s);
    RunConcat(cfg, Init(cfg), start, more);
    run := start + more;
  }

  // Two Broadcasts in a row, wherever they can be reached, can leave the clients stuck for ever.
  lemma PairStops(cfg: Config, p: nat) returns (run: seq<nat>)
    requires Sound(cfg) && 2 <= cfg.n && BackToBack(cfg.sched, p) && OpenTo(cfg, p)
    ensures Legal(cfg, Init(cfg), run) && Stuck(cfg, Run(cfg, Init(cfg), run))
  {
    hide Sound, SyncInv, Enabled, Legal, Run, Init, OpenTo, BackToBack;
    var start, a := IndexError(cfg, p);
    run := RunsOutFrom(cfg, start);
    assert Run(cfg, Init(cfg), run).clients[a].pc != Ready;
  }

  // So does a session without a root or without a worker, whatever the order of the steps: no run
  // gets past it, and every run comes to an end.
  lemma {:induction false} NeverPast(cfg: Config, s: State, run: seq<nat>)
    requires Sound(cfg) && SyncInv(cfg, s) && SessionInv(cfg, s) && HeldUp(cfg, s) && Legal(cfg, s, run)
    ensures HeldUp(cfg, Run(cfg, s, run))
    decreases |run|
  {
    if run != [] {
      hide Sound, SyncInv, SessionInv, HeldUp, Step, Enabled, Runnable;
      CanAct(cfg, s, run[0]);
      StepKeepsSync(cfg, s, run[0]);
      StepKeepsSession(cfg, s, run[0]);
      StepHeldUp(cfg, s, run[0]);
      NeverPast(cfg, Next(cfg, s, run[0]), run[1..]);
    }
  }

  lemma OneSidedStops(cfg: Config, z: nat) returns (run: seq<nat>)
    requires Sound(cfg) && OneSided(cfg, z)
    ensures Legal(cfg, Init(cfg), run) && Stuck(cfg, Run(cfg, Init(cfg), run))
  {
    InitSession(cfg);
    assert HeldUp(cfg, Init(cfg));
    run := RunsOutFrom(cfg, []);
    NeverPast(cfg, Init(cfg), run);
    Reachable(cfg, run);
    var e := Run(cfg, Init(cfg), run);
    SyncSize(cfg, e);
    hide SyncInv, SessionInv, Sound, Enabled, Legal, Run, Init;
    assert e.clients[0].At() <= z;
  }

  // ---------------------------------------------------------------- progress

  // At the end of the run everyone is through, or someone can step.
  ghost predicate Proceeds(cfg: Config, run: seq<nat>) {
    var e := Run(cfg, Init(cfg), run);
    AllDone(cfg, e) || exists c :: Enabled(cfg, e, c)
  }

  lemma GetThrough(cfg: Config, run: seq<nat>)
    requires Sound(cfg) && cfg.n <= 10 && (cfg.n == 1 || Separated(cfg.sched)) && Exchangeable(cfg)
    requires Legal(cfg, Init(cfg), run)
    ensures Proceeds(cfg, run)
  {
    if cfg.n == 1 {
      InitSync(cfg);
      SingleRun(cfg, Init(cfg), run);
    } else {
      SeparatedAgreement(cfg, run);
    }
    var x := NeverStuck(cfg, run);
  }

  lemma NotSeparated(cfg: Config) returns (p: nat)
    requires !Separated(cfg.sched)
    ensures BackToBack(cfg.sched, p)
  {
    p :| 0 <= p < |cfg.sched| && BackToBack(cfg.sched, p);
  }

  // A run that gets stuck, whenever one of the conditions fails.
  lemma Stops(cfg: Config) returns (run: seq<nat>)
    requires Sound(cfg) && cfg.sched != []
    requires !(cfg.n <= 10 && (cfg.n == 1 || Separated(cfg.sched)) && Exchangeable(cfg))
    ensures Legal(cfg, Init(cfg), run) && Stuck(cfg, Run(cfg, Init(cfg), run))
  {
    if cfg.n > 10 {
      run := OverfullStops(cfg);
    } else if !Exchangeable(cfg) {
      var z :| 0 <= z < |cfg.sched| && IsSession(cfg, z) && !BothParts(cfg.sched[z]);
      run := OneSidedStops(cfg, z);
    } else {
      var p := NotSeparated(cfg);
      AllOpen(cfg, p);
      run := PairStops(cfg, p);
    }
  }

  // For any number of clients and any schedule that is not empty: whatever the order of the steps,
  // the clients can always go on until all are through, exactly if there is a thread for each of
  // them, no two Broadcasts follow each other unless there is a single client, and every session
  // has a root and a worker.
  lemma ProgressIff(cfg: Config)
    requires Sound(cfg) && cfg.sched != []
    ensures cfg.n <= 10 && (cfg.n == 1 || Separated(cfg.sched)) && Exchangeable(cfg) <==>
      forall run :: Legal(cfg, Init(cfg), run) ==> Proceeds(cfg, run)
  {
    hide Separated, Exchangeable, Enabled, AllDone, Legal, Run, Init, Sound;
    if cfg.n <= 10 && (cfg.n == 1 || Separated(cfg.sched)) && Exchangeable(cfg) {
      forall run | Legal(cfg, Init(cfg), run) ensures Proceeds(cfg, run) {
        GetThrough(cfg, run);
      }
    } else {
      var run := Stops(cfg);
      assert !Proceeds(cfg, run);
    }
  }

  // The smallest case: two clients, of which client 0 sends 42 twice with no Barrier between, can
  // get stuck.
  lemma TwiceGetsStuck() returns (cfg: Config, run: seq<nat>)
    ensures cfg == Config(2, [Broadcast(0, [42, 42]), Broadcast(0, [42, 42])])
    ensures Sound(cfg) && Legal(cfg, Init(cfg), run) && Stuck(cfg, Run(cfg, Init(cfg), run))
  {
    hide Legal, Run, Init, Stuck;
    cfg := Config(2, [Broadcast(0, [42, 42]), Broadcast(0, [42, 42])]);
    assert BackToBack(cfg.sched, 1) && OpenTo(cfg, 1);
    run := PairStops(cfg, 1);
  }
}
