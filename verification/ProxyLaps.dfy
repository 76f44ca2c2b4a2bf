// What one lap of the cursor does, from one arrival at handler->ops to the next, and when the
// thread gives up the processor.

module ProxyLaps {
  import opened ProxyModel
  import opened ProxyRuns

  // ---------------------------------------------------------------- one visit per lap

  // A splice after which the cursor stands on the member that handler->ops points to, or there is
  // neither.
  ghost predicate Laps<T, O>(s: Exec<T, O>, l: Label<T, O>) {
    Inv(s) && Enabled(s, l) && l.Splice? && Next(s, l).anchor == 0
  }

  // A run within one lap: no arrival, and the thread is not aborted.
  ghost predicate InLap<T, O>(s: Exec<T, O>, ls: seq<Label<T, O>>)
    decreases |ls|
  {
    ls == [] || (!Laps(s, ls[0]) && !ls[0].Abort? && InLap(Next(s, ls[0]), ls[1..]))
  }

  ghost function VisitedBy<T, O>(s: Exec<T, O>, l: Label<T, O>): seq<T> {
    if l.Visit? && s.ring != [] then [s.ring[0]] else []
  }

  // The ring members visited during a run, in order.
  ghost function Visited<T, O>(s: Exec<T, O>, ls: seq<Label<T, O>>): seq<T>
    decreases |ls|
  {
    if ls == [] then [] else VisitedBy(s, ls[0]) + Visited(Next(s, ls[0]), ls[1..])
  }

  ghost function InsertedBy<T, O>(s: Exec<T, O>, l: Label<T, O>): set<T> {
    if l.Append? && l.tail !in s.chains then {l.tail} else {}
  }

  ghost function Inserted<T, O>(s: Exec<T, O>, ls: seq<Label<T, O>>): set<T>
    decreases |ls|
  {
    if ls == [] then {} else InsertedBy(s, ls[0]) + Inserted(Next(s, ls[0]), ls[1..])
  }

  // The members this lap has still to visit: those between the cursor and ops.
  ghost function Pending<T, O>(s: Exec<T, O>): seq<T>
    requires s.Active() && s.anchor < |s.ring|
  {
    if s.phase == Visiting then (if s.anchor == 0 then s.ring else s.ring[..s.anchor])
    else if s.anchor == 0 then s.ring[1..] else s.ring[1..s.anchor]
  }

  ghost predicate MidLap<T, O>(s: Exec<T, O>, visited: seq<T>, inserted: set<T>) {
    && s.Active() && s.anchor < |s.ring|
    && NoDup(visited)
    && (forall t :: t in visited ==> t !in Pending(s))
    && (forall t :: t in s.ring ==> t in visited || t in Pending(s) || t in inserted)
    && (s.anchor == 0 ==> visited == if s.phase == Visiting then [] else [s.ring[0]])
  }

  lemma VisitMidLap<T, O>(s: Exec<T, O>, left: nat, quiet: bool, visited: seq<T>, inserted: set<T>)
    requires Shape(s) && s.phase == Visiting && MidLap(s, visited, inserted)
    ensures s.ring != [] && s.Chain(s.ring[0]) != []
    ensures MidLap(Progress(s, left, quiet), visited + [s.ring[0]], inserted)
  {
    var p, x := Pending(s), s.ring[0];
    assert p == [x] + p[1..] && p[0] in p;
    assert x !in visited;
    assert Pending(Progress(s, left, quiet)) == p[1..];
    forall k | 0 <= k < |p[1..]| ensures p[1..][k] != x {
      assert p[1..][k] == s.ring[k + 1];
    }
  }

  // Where the members are after an insertion.
  lemma Inserting<T>(q: seq<T>, anchor: nat, t: T)
    requires anchor < |q|
    ensures var r := InsertAfter(q, anchor, t);
      && |r| == |q| + 1 && r[0] == q[0]
      && (forall u :: u in r ==> u in q || u == t)
      && (anchor > 0 ==> r[..anchor] == q[..anchor] && r[1..anchor] == q[1..anchor])
      && (anchor == 0 ==> r[1..] == [t] + q[1..])
  {
  }

  lemma InsertMidLap<T, O>(s: Exec<T, O>, t: T, o: O, work: nat, visited: seq<T>, inserted: set<T>)
    requires Shape(s) && t !in s.chains && MidLap(s, visited, inserted)
    ensures MidLap(Enqueue(s, t, o, work), visited, inserted + {t})
  {
    hide NoDup, InsertAfter;
    var r := Enqueue(s, t, o, work);
    Inserting(s.ring, s.anchor, t);
    hide Shape;
    if s.anchor > 0 {
      assert Pending(r) == Pending(s);
    } else if s.phase == Splicing {
      assert Pending(r) == [t] + Pending(s);
    }
  }

  lemma SpliceMidLap<T, O>(s: Exec<T, O>, visited: seq<T>, inserted: set<T>)
    requires Shape(s) && s.phase == Splicing && !Arrives(s) && MidLap(s, visited, inserted)
    ensures MidLap(SpliceNext(s), visited, inserted)
  {
    var r, q, n := SpliceNext(s), s.ring, |s.ring|;
    SplicePending(s);
    forall t | t in r.ring ensures t in q && !(Unlinks(s) && t == NextTail(s)) {
      SpliceMembers(s, t);
    }
    hide NoDup;
  }

  // Advancing leaves pending what was pending, but for a member that left the ring.
  lemma SplicePending<T, O>(s: Exec<T, O>)
    requires Shape(s) && s.phase == Splicing && !Arrives(s)
    ensures SpliceNext(s).Active() && 0 < SpliceNext(s).anchor < |SpliceNext(s).ring|
    ensures Pending(SpliceNext(s)) == if Unlinks(s) then Pending(s)[1..] else Pending(s)
    ensures Unlinks(s) ==> Pending(s) != [] && Pending(s)[0] == NextTail(s)
  {
    hide NoDup;
    var q, a, n := s.ring, s.anchor, |s.ring|;
    if Unlinks(s) {
      if a == 0 {
        assert (q[2..] + q[..1])[..n - 2] == q[2..] == q[1..][1..];
      } else {
        assert (q[2..] + q[..1])[..a - 2] == q[2..a] == q[1..a][1..];
      }
    } else if a == 0 {
      assert (q[1..] + q[..1])[..n - 1] == q[1..];
    } else {
      assert (q[1..] + q[..1])[..a - 1] == q[1..a];
    }
  }

  // The end of the lap: everything pending was visited, or has just left the ring.
  lemma SpliceEndsLap<T, O>(s: Exec<T, O>, visited: seq<T>, inserted: set<T>, t: T)
    requires Shape(s) && s.phase == Splicing && Arrives(s) && MidLap(s, visited, inserted)
    requires t in SpliceNext(s).ring
    ensures t in visited || t in inserted
  {
    SpliceMembers(s, t);
  }

  lemma OtherMidLap<T, O>(s: Exec<T, O>, l: Label<T, O>, visited: seq<T>, inserted: set<T>)
    requires Inv(s) && Enabled(s, l) && MidLap(s, visited, inserted)
    requires l.Alloc? || l.Start? || l.Destroy? || (l.Append? && l.tail in s.chains)
    ensures MidLap(Next(s, l), visited, inserted)
  {
    hide Conserved, NoDup, FreshSlab;
    assert Next(s, l).ring == s.ring && Next(s, l).phase == s.phase && Next(s, l).anchor == s.anchor;
  }

  lemma StepMidLap<T, O>(s: Exec<T, O>, l: Label<T, O>, visited: seq<T>, inserted: set<T>)
    requires Inv(s) && Enabled(s, l) && !Laps(s, l) && !l.Abort? && MidLap(s, visited, inserted)
    ensures MidLap(Next(s, l), visited + VisitedBy(s, l), inserted + InsertedBy(s, l))
  {
    hide Conserved, NoDup, FreshSlab, MidLap, Shape;
    MidLapActive(s, visited, inserted);
    assert visited + [] == visited;
    assert inserted + {} == inserted;
    match l
    case Visit(left, quiet) => VisitMidLap(s, left, quiet, visited, inserted);
    case Splice => SpliceMidLap(s, visited, inserted);
    case Append(t, o, work) =>
      if t in s.chains {
        OtherMidLap(s, l, visited, inserted);
      } else {
        InsertMidLap(s, t, o, work, visited, inserted);
      }
    case _ => OtherMidLap(s, l, visited, inserted);
  }

  lemma MidLapActive<T, O>(s: Exec<T, O>, visited: seq<T>, inserted: set<T>)
    requires MidLap(s, visited, inserted)
    ensures s.Active()
  {
  }

  lemma {:induction false} LapSteps<T, O>(s: Exec<T, O>, ls: seq<Label<T, O>>, visited: seq<T>, inserted: set<T>)
    requires Inv(s) && Legal(s, ls) && InLap(s, ls) && MidLap(s, visited, inserted)
    ensures Inv(Run(s, ls)) && MidLap(Run(s, ls), visited + Visited(s, ls), inserted + Inserted(s, ls))
    decreases |ls|
  {
    hide Inv, Next, MidLap, VisitedBy, InsertedBy, Laps;
    if ls == [] {
      assert visited + [] == visited;
      assert inserted + {} == inserted;
    } else {
      var s1 := Next(s, ls[0]);
      NextKeepsInv(s, ls[0]);
      StepMidLap(s, ls[0], visited, inserted);
      LapSteps(s1, ls[1..], visited + VisitedBy(s, ls[0]), inserted + InsertedBy(s, ls[0]));
      assert (visited + VisitedBy(s, ls[0])) + Visited(s1, ls[1..]) ==
          visited + (VisitedBy(s, ls[0]) + Visited(s1, ls[1..]));
      assert (inserted + InsertedBy(s, ls[0])) + Inserted(s1, ls[1..]) ==
          inserted + (InsertedBy(s, ls[0]) + Inserted(s1, ls[1..]));
    }
  }

  // Lap accounting: from the cursor at ops until it comes back to ops, no ring member is visited
  // twice, and every member that is in the ring at the end and was not inserted on the way has
  // been visited.
  lemma OncePerLap<T, O>(s: Exec<T, O>, ls: seq<Label<T, O>>)
    requires Inv(s) && s.phase == Visiting && s.anchor == 0
    requires Legal(s, ls) && InLap(s, ls) && Laps(Run(s, ls), Splice)
    ensures NoDup(Visited(s, ls))
    ensures forall t :: t in Next(Run(s, ls), Splice).ring ==> t in Visited(s, ls) || t in Inserted(s, ls)
  {
    StartsLap(s);
    hide Inv, MidLap, Next, Enabled, InLap, VisitedBy, InsertedBy, Legal, Run;
    LapSteps(s, ls, [], {});
    var e := Run(s, ls);
    assert [] + Visited(s, ls) == Visited(s, ls);
    assert {} + Inserted(s, ls) == Inserted(s, ls);
    LapEnds(e, Visited(s, ls), Inserted(s, ls));
  }

  lemma StartsLap<T, O>(s: Exec<T, O>)
    requires Inv(s) && s.phase == Visiting && s.anchor == 0
    ensures MidLap(s, [], {})
  {
    hide Conserved;
  }

  lemma LapEnds<T, O>(s: Exec<T, O>, visited: seq<T>, inserted: set<T>)
    requires Laps(s, Splice) && MidLap(s, visited, inserted)
    ensures NoDup(visited) && forall t :: t in Next(s, Splice).ring ==> t in visited || t in inserted
  {
    assert Inv(s) && Next(s, Splice) == SpliceNext(s) by { hide Inv; }
    assert Shape(s) && Arrives(s);
    forall t | t in Next(s, Splice).ring ensures t in visited || t in inserted {
      SpliceEndsLap(s, visited, inserted, t);
    }
  }

  // ---------------------------------------------------------------- idle laps

  // The operation visited by this step reported itself idle.
  ghost predicate Quiet<T, O>(s: Exec<T, O>, l: Label<T, O>) {
    l.Visit? && Inv(s) && Enabled(s, l) ==> s.Left(Current(s)) > 0 && l.quiet
  }

  ghost predicate AllQuiet<T, O>(s: Exec<T, O>, ls: seq<Label<T, O>>)
    decreases |ls|
  {
    ls == [] || (Quiet(s, ls[0]) && AllQuiet(Next(s, ls[0]), ls[1..]))
  }

  // The laps completed in a run.
  ghost function Arrivals<T, O>(s: Exec<T, O>, ls: seq<Label<T, O>>): nat
    decreases |ls|
  {
    if ls == [] then 0 else (if Laps(s, ls[0]) then 1 else 0) + Arrivals(Next(s, ls[0]), ls[1..])
  }

  ghost predicate YieldsAt<T, O>(s: Exec<T, O>, l: Label<T, O>) {
    l.Splice? && AboutToYield(s)
  }

  ghost predicate NeverYields<T, O>(s: Exec<T, O>, ls: seq<Label<T, O>>)
    decreases |ls|
  {
    ls == [] || (!YieldsAt(s, ls[0]) && NeverYields(Next(s, ls[0]), ls[1..]))
  }

  // The thread is about to begin a lap: the cursor is at ops, or there is none.
  ghost predicate AtLapStart<T, O>(s: Exec<T, O>) {
    s.anchor == 0 && s.phase != Splicing
  }

  lemma {:induction false} QuietConcat<T, O>(s: Exec<T, O>, a: seq<Label<T, O>>, b: seq<Label<T, O>>)
    ensures AllQuiet(s, a + b) <==> AllQuiet(s, a) && AllQuiet(Run(s, a), b)
    ensures Arrivals(s, a + b) == Arrivals(s, a) + Arrivals(Run(s, a), b)
    decreases |a|
  {
    hide Next, Quiet, Laps;
    if a == [] {
      assert a + b == b;
    } else {
      assert (a + b)[1..] == a[1..] + b;
      QuietConcat(Next(s, a[0]), a[1..], b);
    }
  }

  lemma SpinStep<T, O>(s: Exec<T, O>, l: Label<T, O>)
    requires Inv(s) && Enabled(s, l)
    ensures var r := Next(s, l);
      && (r.idle == if Laps(s, l) then true else s.idle && Quiet(s, l))
      && (YieldsAt(s, l) ==> Laps(s, l) && s.idle && s.idleSpin == SPIN_LIMIT - 1 && r.idleSpin == 0)
      && (!YieldsAt(s, l) && s.idle ==>
          r.idleSpin == s.idleSpin + (if Laps(s, l) then 1 else 0) && r.idleSpin < SPIN_LIMIT)
      && (l.Splice? && !s.idle ==> r.idleSpin == 0)
      && (Laps(s, l) ==> AtLapStart(r))
  {
    hide Conserved, NoDup, FreshSlab;
  }

  // If idle holds, there is a lap start since when every visited operation reported itself idle,
  // idleSpin complete laps ago.
  lemma {:induction false} IdleSince<T, O>(s: Exec<T, O>, ls: seq<Label<T, O>>) returns (j: nat)
    requires Inv(s) && Legal(s, ls) && AtLapStart(s) && s.idle && s.idleSpin == 0
    ensures Inv(Run(s, ls)) && j <= |ls|
    ensures Run(s, ls).idle ==>
      var e := Run(s, ls[..j]);
      AtLapStart(e) && AllQuiet(e, ls[j..]) && Arrivals(e, ls[j..]) == Run(s, ls).idleSpin
    decreases |ls|
  {
    hide Inv, Next, Quiet, Laps, AtLapStart, YieldsAt, Enabled;
    if ls == [] {
      j := 0;
    } else {
      var k := |ls| - 1;
      var pre, l := ls[..k], ls[k];
      assert ls == pre + [l];
      RunConcat(s, pre, [l]);
      assert [l][1..] == [];
      j := IdleSince(s, pre);
      var m := Run(s, pre);
      assert Run(m, [l]) == Next(m, l) && Legal(m, [l]) && Enabled(m, l);
      SpinStep(m, l);
      NextKeepsInv(m, l);
      if Laps(m, l) && (!m.idle || YieldsAt(m, l)) {
        j := |ls|;
        assert ls[..j] == ls && ls[j..] == [];
        LapsSplice(m, l);
      } else if m.idle {
        assert ls[..j] == pre[..j] && ls[j..] == pre[j..] + [l];
        var e := Run(s, ls[..j]);
        assert pre == pre[..j] + pre[j..];
        RunConcat(s, pre[..j], pre[j..]);
        QuietConcat(e, pre[j..], [l]);
        LapsSplice(m, l);
      }
    }
  }

  lemma LapsSplice<T, O>(s: Exec<T, O>, l: Label<T, O>)
    ensures Laps(s, l) ==> l.Splice? && Quiet(s, l)
  {
  }

  lemma YieldFacts<T, O>(s: Exec<T, O>)
    requires AboutToYield(s)
    ensures s.idle && s.idleSpin == SPIN_LIMIT - 1
    ensures Arrivals(s, [Splice]) == 1 && AllQuiet(s, [Splice])
  {
    var one: seq<Label<T, O>> := [Splice];
    assert one[1..] == [];
    assert Laps(s, Splice) by { hide Conserved, NoDup, SpliceRing; }
    hide Next, Inv, Conserved, NoDup, SpliceRing;
  }

  // The thread yields only after ten laps in a row in which every visited operation was idle:
  // nine complete ones, and the one this splice completes.
  lemma YieldsAfterTenIdleLaps<T, O>(ls: seq<Label<T, O>>) returns (j: nat)
    requires Legal(Init<T, O>(), ls) && AboutToYield(Run(Init<T, O>(), ls))
    ensures j <= |ls|
    ensures var e := Run(Init<T, O>(), ls[..j]);
      AtLapStart(e) && AllQuiet(e, ls[j..]) && Arrivals(e, ls[j..] + [Splice]) == 10
  {
    hide AboutToYield, Next, Quiet, Laps, Enabled, Inv;
    InitInv<T, O>();
    j := IdleSince(Init<T, O>(), ls);
    var e := Run(Init<T, O>(), ls[..j]);
    assert ls == ls[..j] + ls[j..];
    RunConcat(Init<T, O>(), ls[..j], ls[j..]);
    YieldFacts(Run(Init<T, O>(), ls));
    QuietConcat(e, ls[j..], [Splice]);
  }

  // And it does yield then: without yielding, idle laps add up in idleSpin, which stays below ten.
  lemma {:induction false} IdleLapsAddUp<T, O>(s: Exec<T, O>, ls: seq<Label<T, O>>)
    requires Inv(s) && Legal(s, ls) && s.idle && AllQuiet(s, ls) && NeverYields(s, ls)
    ensures Run(s, ls).idle
    ensures Run(s, ls).idleSpin == s.idleSpin + Arrivals(s, ls) < 10
    decreases |ls|
  {
    hide Next, Quiet, Laps, YieldsAt;
    if ls != [] {
      SpinStep(s, ls[0]);
      NextKeepsInv(s, ls[0]);
      IdleLapsAddUp(Next(s, ls[0]), ls[1..]);
    }
  }
}
