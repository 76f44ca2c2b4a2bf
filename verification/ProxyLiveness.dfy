// What the thread reaches on its own: a client that waits for the operations, or for the thread
// to end, does not wait for ever.

module ProxyLiveness {
  import opened ProxyModel
  import opened ProxyRuns
  import opened ProxyProgress

  // A step of the thread that needs no one else: it leaves the wait only after a signal.
  ghost predicate ThreadStep<T, O>(s: Exec<T, O>, l: Label<T, O>) {
    l.Fetch? || l.Visit? || l.Splice? || (l.Wake? && s.phase == Parked(true))
  }

  ghost predicate ThreadRun<T, O>(s: Exec<T, O>, ls: seq<Label<T, O>>)
    decreases |ls|
  {
    ls == [] || (ThreadStep(s, ls[0]) && ThreadRun(Next(s, ls[0]), ls[1..]))
  }

  // The steps of an iteration still to come, and with them the steps until the thread is at rest.
  ghost function Rank(p: Phase): nat {
    match p
    case Parked(signalled) => if signalled then 3 else 0
    case Fetching => 2
    case Visiting => 1
    case _ => 0
  }

  ghost function StepsLeft<T, O>(s: Exec<T, O>): nat
    requires Inv(s)
  {
    4 * Potential(s) + Rank(s.phase)
  }

  // Only an empty ring brings the thread to rest, and `stop` says whether it ends or sleeps.
  lemma TurnPhase<T, O>(s: Exec<T, O>, l: Label<T, O>)
    requires Inv(s) && Enabled(s, l) && ThreadStep(s, l)
    ensures var r := Next(s, l);
      && r.stop == s.stop && !s.phase.Exited? && s.phase != Parked(false)
      && (r.phase.Exited? || r.phase.Parked? ==>
            s.ring == r.ring == [] && r.phase == if s.stop then Exited(true) else Parked(false))
      && (if l.Splice? then Rank(r.phase) <= 2 else Rank(r.phase) < Rank(s.phase))
  {
    hide Conserved, NoDup, SpliceRing;
  }

  // Whatever the callback does, as long as it makes headway, every step of the thread brings it
  // nearer to its rest.
  lemma TurnDecreases<T, O>(s: Exec<T, O>, l: Label<T, O>)
    requires Inv(s) && Enabled(s, l) && ThreadStep(s, l) && Drains(s, l)
    ensures Inv(Next(s, l)) && StepsLeft(Next(s, l)) < StepsLeft(s)
  {
    hide Inv, Enabled, Next, Potential, Rank, ThreadStep, Drains;
    StepPotential(s, l);
    TurnPhase(s, l);
  }

  // The thread cannot go on for ever by itself, with work or without: a run of its own steps,
  // with a callback that makes headway, is no longer than this.
  lemma {:induction false} RunsDry<T, O>(s: Exec<T, O>, ls: seq<Label<T, O>>)
    requires Inv(s) && Legal(s, ls) && ThreadRun(s, ls) && Draining(s, ls)
    ensures |ls| <= StepsLeft(s) <= 8 * TotalLoad(s) + 7
    ensures s.ring == [] ==> |ls| <= 3
    decreases |ls|
  {
    StepsLeftBound(s);
    if ls != [] {
      hide Inv, Next, Enabled, ThreadStep, Drains, StepsLeft, TotalLoad;
      TurnDecreases(s, ls[0]);
      RunsDry(Next(s, ls[0]), ls[1..]);
    }
  }

  lemma StepsLeftBound<T, O>(s: Exec<T, O>)
    requires Inv(s)
    ensures StepsLeft(s) <= 8 * TotalLoad(s) + 7
    ensures s.ring == [] ==> StepsLeft(s) <= 3
  {
    hide Conserved, NoDup, TotalLoad;
  }

  lemma {:induction false} Rests<T, O>(s: Exec<T, O>, ls: seq<Label<T, O>>)
    requires Inv(s) && Legal(s, ls) && ThreadRun(s, ls)
    requires !s.phase.Exited? && s.phase != Parked(false)
    requires Run(s, ls).phase.Exited? || Run(s, ls).phase == Parked(false)
    ensures var e := Run(s, ls);
      e.ring == [] && e.stop == s.stop && e.phase == if s.stop then Exited(true) else Parked(false)
    decreases |ls|
  {
    hide Inv, Next, Enabled, ThreadStep;
    var r := Next(s, ls[0]);
    NextKeepsInv(s, ls[0]);
    TurnPhase(s, ls[0]);
    if r.phase.Exited? || r.phase.Parked? {
      if ls[1..] != [] {
        TurnPhase(r, ls[1..][0]);
      }
    } else {
      Rests(r, ls[1..]);
    }
  }

  // And when it has nothing left to do, the ring is empty and it has ended if it was told to
  // stop, and sleeps if it was not.
  lemma ComesToRest<T, O>(s: Exec<T, O>, ls: seq<Label<T, O>>)
    requires Inv(s) && Legal(s, ls) && ThreadRun(s, ls)
    requires forall l :: Enabled(Run(s, ls), l) ==> !ThreadStep(Run(s, ls), l)
    requires !s.phase.Exited? && s.phase != Parked(false)
    ensures var e := Run(s, ls);
      e.ring == [] && e.stop == s.stop && e.phase == if s.stop then Exited(true) else Parked(false)
  {
    RunKeepsInv(s, ls);
    Resting(Run(s, ls));
    Rests(s, ls);
  }

  lemma Resting<T, O>(s: Exec<T, O>)
    requires Inv(s)
    ensures (forall l :: Enabled(s, l) ==> !ThreadStep(s, l)) <==> s.phase.Exited? || s.phase == Parked(false)
  {
    if !s.phase.Exited? && s.phase != Parked(false) {
      TurnEnabled(s);
    }
  }

  // The next step of the thread, with a callback that takes one call off what is needed.
  ghost function Turn<T, O>(s: Exec<T, O>): Label<T, O>
    requires Inv(s)
  {
    match s.phase
    case Fetching => Fetch
    case Parked(_) => Wake
    case Visiting => Visit(if s.Left(Current(s)) > 0 then s.Left(Current(s)) - 1 else 0, true)
    case _ => Splice
  }

  lemma TurnEnabled<T, O>(s: Exec<T, O>)
    requires Inv(s) && !s.phase.Exited? && s.phase != Parked(false)
    ensures Enabled(s, Turn(s)) && ThreadStep(s, Turn(s)) && Drains(s, Turn(s))
  {
    hide Conserved, NoDup;
  }

  // The thread gets to the empty ring by its own steps.
  lemma {:induction false} Empties<T, O>(s: Exec<T, O>) returns (ls: seq<Label<T, O>>)
    requires Inv(s) && !s.phase.Exited? && (s.ring == [] || s.phase != Parked(false))
    ensures Legal(s, ls) && ThreadRun(s, ls) && Draining(s, ls)
    ensures var e := Run(s, ls);
      && Inv(e) && e.ring == [] && !e.phase.Exited? && e.stop == s.stop
      && (s.phase != Parked(false) ==> e.phase != Parked(false))
    decreases StepsLeft(s)
  {
    hide Inv, Next, Enabled, ThreadStep, Drains, StepsLeft, Turn;
    ls := [];
    if s.ring != [] {
      var l := Turn(s);
      TurnEnabled(s);
      TurnDecreases(s, l);
      TurnPhase(s, l);
      var more := Empties(Next(s, l));
      ls := [l] + more;
      assert ls[1..] == more;
    }
  }

  lemma {:induction false} UnstartedConcat<T, O>(before: bool, a: seq<Label<T, O>>, b: seq<Label<T, O>>)
    ensures Unstarted(before, a + b) == Unstarted(Unstarted(before, a), b)
    decreases |a|
  {
    if a == [] {
      assert a + b == b;
    } else {
      assert (a + b)[1..] == a[1..] + b;
      UnstartedConcat(if a[0].Append? then true else if a[0].Start? then false else before, a[1..], b);
    }
  }

  lemma {:induction false} DrainingStarted<T, O>(s: Exec<T, O>, ls: seq<Label<T, O>>)
    requires Draining(s, ls)
    ensures !Unstarted(false, ls)
    decreases |ls|
  {
    if ls != [] {
      DrainingStarted(Next(s, ls[0]), ls[1..]);
    }
  }

  lemma {:induction false} DrainingAppend<T, O>(s: Exec<T, O>, a: seq<Label<T, O>>, b: seq<Label<T, O>>)
    requires Draining(s, a) && Draining(Run(s, a), b)
    ensures Draining(s, a + b)
    decreases |a|
  {
    hide Next, Drains;
    if a == [] {
      assert a + b == b;
    } else {
      assert (a + b)[1..] == a[1..] + b;
      DrainingAppend(Next(s, a[0]), a[1..], b);
    }
  }

  // ProxyWaitAllOpFinished returns: if every append so far was followed by a ProxyStart, then
  // however a run without further appends goes on, the thread, unless it has ended, can complete
  // it by its own steps to a state in which everything appended has been recycled, and all that
  // within the bound on its iterations.
  lemma WaitReturns<T, O>(ls: seq<Label<T, O>>, mid: seq<Label<T, O>>) returns (more: seq<Label<T, O>>)
    requires Legal(Init(), ls + mid) && !Unstarted(false, ls)
    requires Draining(Run(Init(), ls), mid) && !Run(Init(), ls + mid).phase.Exited?
    ensures Legal(Init(), ls + mid + more) && ThreadRun(Run(Init(), ls + mid), more)
    ensures Draining(Run(Init(), ls), mid + more)
    ensures Inv(Run(Init<T, O>(), ls)) && Iterations(mid + more) <= Potential(Run(Init(), ls))
    ensures Run(Init(), ls + mid + more).ring == []
    ensures forall t :: Appended(ls + mid + more, t) == Recycled(Init(), ls + mid + more, t)
  {
    hide Inv, Legal, Run, Draining, ThreadRun, Iterations, Potential, Unstarted, MaySleep, Appended, Recycled, Init;
    var s0 := Init<T, O>();
    var s, m := Run(s0, ls), Run(s0, ls + mid);
    InitInv<T, O>();
    RunKeepsInv(s0, ls);
    RunKeepsInv(s0, ls + mid);
    UnstartedConcat(false, ls, mid);
    DrainingStarted(s, mid);
    WakesUp(ls + mid);
    Awake(m);
    more := Empties(m);
    RunConcat(s0, ls, mid);
    RunConcat(s0, ls + mid, more);
    RunConcat(s, mid, more);
    DrainingAppend(s, mid, more);
    DrainSteps(s, mid + more);
    EmptyMeansAllDone(ls + mid + more);
  }

  lemma Awake<T, O>(s: Exec<T, O>)
    requires MaySleep(s, false)
    ensures s.ring == [] || s.phase != Parked(false)
    ensures s.stop ==> s.phase != Parked(false)
  {
  }

  // ---------------------------------------------------------------- the end of the thread

  ghost predicate NoStart<T, O>(ls: seq<Label<T, O>>) {
    forall i :: 0 <= i < |ls| ==> !ls[i].Start?
  }

  lemma StopStays<T, O>(s: Exec<T, O>, l: Label<T, O>)
    requires s.stop && !l.Start?
    ensures Next(s, l).stop
  {
    hide Inv, NoDup, SpliceRing;
  }

  lemma {:induction false} StopsStay<T, O>(s: Exec<T, O>, ls: seq<Label<T, O>>)
    requires s.stop && NoStart(ls)
    ensures Run(s, ls).stop
    decreases |ls|
  {
    hide Next;
    if ls != [] {
      StopStays(s, ls[0]);
      StopsStay(Next(s, ls[0]), ls[1..]);
    }
  }

  // From the empty ring a thread that is told to stop leaves.
  lemma Leaves<T, O>(s: Exec<T, O>) returns (ls: seq<Label<T, O>>)
    requires Inv(s) && s.ring == [] && s.stop && !s.phase.Exited? && s.phase != Parked(false)
    ensures Legal(s, ls) && ThreadRun(s, ls) && Run(s, ls).phase == Exited(true)
  {
    hide NoDup, Queued;
    var one: seq<Label<T, O>>, two: seq<Label<T, O>> := [Fetch], [Wake, Fetch];
    assert one[1..] == [] && two[1..] == one;
    var r := s.(phase := Fetching);
    assert Inv(r) && Next(r, Fetch).phase == Exited(true);
    assert Run(r, one) == Run(Next(r, Fetch), []) && Legal(r, one) && ThreadRun(r, one);
    if s.phase == Fetching {
      ls := one;
    } else {
      ls := two;
      assert s.phase == Parked(true) && Next(s, Wake) == r;
      assert Run(s, two) == Run(r, one);
    }
  }

  lemma {:induction false} ThreadConcat<T, O>(s: Exec<T, O>, a: seq<Label<T, O>>, b: seq<Label<T, O>>)
    requires ThreadRun(s, a) && ThreadRun(Run(s, a), b)
    ensures ThreadRun(s, a + b)
    decreases |a|
  {
    hide Next, ThreadStep;
    if a == [] {
      assert a + b == b;
    } else {
      assert (a + b)[1..] == a[1..] + b;
      ThreadConcat(Next(s, a[0]), a[1..], b);
    }
  }

  // The join in ProxyDestroy returns: once stop has been set, and unless a ProxyStart follows, the
  // thread either has ended or gets by its own steps, all callbacks making headway, to leave.
  lemma JoinReturns<T, O>(ls: seq<Label<T, O>>, later: seq<Label<T, O>>) returns (more: seq<Label<T, O>>)
    requires Legal(Init(), ls + [Destroy] + later) && NoStart(later)
    requires !Run(Init(), ls + [Destroy] + later).phase.Exited?
    ensures Legal(Init(), ls + [Destroy] + later + more)
    ensures ThreadRun(Run(Init(), ls + [Destroy] + later), more)
    ensures Run(Init(), ls + [Destroy] + later + more).phase == Exited(true)
  {
    hide Inv, Legal, Run, Draining, ThreadRun, MaySleep, Init, NoStart, Unstarted;
    var s0 := Init<T, O>();
    var all := ls + [Destroy] + later;
    var s := Run(s0, all);
    InitInv<T, O>();
    RunKeepsInv(s0, all);
    StoppedBy(ls, later);
    WakesUp(all);
    Asleep(s, Unstarted(false, all));
    var a := Empties(s);
    var b := Leaves(Run(s, a));
    more := a + b;
    RunConcat(s, a, b);
    RunConcat(s0, all, more);
    ThreadConcat(s, a, b);
  }

  lemma Asleep<T, O>(s: Exec<T, O>, unstarted: bool)
    requires MaySleep(s, unstarted)
    ensures s.stop ==> s.phase != Parked(false)
  {
  }

  lemma DestroyStops<T, O>(s: Exec<T, O>)
    requires Inv(s)
    ensures Next(s, Destroy).stop
  {
    hide Inv;
  }

  lemma StoppedBy<T, O>(ls: seq<Label<T, O>>, later: seq<Label<T, O>>)
    requires NoStart(later)
    ensures Run(Init<T, O>(), ls + [Destroy] + later).stop
  {
    hide NoStart, Init, Inv, Next;
    var s0 := Init<T, O>();
    InitInv<T, O>();
    RunKeepsInv(s0, ls);
    var one: seq<Label<T, O>> := [Destroy];
    RunConcat(s0, ls, one);
    RunConcat(s0, ls + one, later);
    var s := Run(s0, ls);
    assert one[1..] == [] && Run(s, one) == Run(Next(s, Destroy), []);
    DestroyStops(s);
    StopsStay(Run(s0, ls + one), later);
  }

  // ---------------------------------------------------------------- the abort flag

  // A thread that is not asleep gets to see the abort flag within one step of its own, and calls
  // nothing before it does.
  lemma AbortSoon<T, O>(ls: seq<Label<T, O>>) returns (more: seq<Label<T, O>>)
    requires Legal(Init(), ls) && !Run(Init(), ls).phase.Exited? && Run(Init(), ls).phase != Parked(false)
    ensures |more| <= 1 && Legal(Init(), ls + more + [Abort]) && ThreadRun(Run(Init(), ls), more)
    ensures forall i :: 0 <= i < |more| ==> !more[i].Visit?
    ensures Run(Init(), ls + more + [Abort]).phase == Exited(false)
  {
    hide Inv, Init, Legal, Run, ThreadRun;
    InitInv<T, O>();
    RunKeepsInv(Init<T, O>(), ls);
    more := FromThere(Run(Init<T, O>(), ls));
    RunConcat(Init<T, O>(), ls, more + [Abort]);
    assert ls + (more + [Abort]) == ls + more + [Abort];
  }

  lemma FromThere<T, O>(s: Exec<T, O>) returns (more: seq<Label<T, O>>)
    requires Inv(s) && !s.phase.Exited? && s.phase != Parked(false)
    ensures |more| <= 1 && Legal(s, more + [Abort]) && ThreadRun(s, more)
    ensures forall i :: 0 <= i < |more| ==> !more[i].Visit?
    ensures Run(s, more + [Abort]).phase == Exited(false)
  {
    hide Inv, Next, Enabled, ThreadStep, Turn;
    if s.phase == Fetching || s.phase == Visiting {
      more := [];
      Aborts(s);
      assert more + [Abort] == [Abort];
    } else {
      var l := Turn(s);
      more := [l];
      TurnEnabled(s);
      NextKeepsInv(s, l);
      SeesFlag(s);
      Aborts(Next(s, l));
      assert more[1..] == [] && (more + [Abort])[1..] == [Abort];
    }
  }

  lemma SeesFlag<T, O>(s: Exec<T, O>)
    requires Inv(s) && (s.phase == Splicing || s.phase == Parked(true))
    ensures !Turn(s).Visit? && (Next(s, Turn(s)).phase == Fetching || Next(s, Turn(s)).phase == Visiting)
  {
    hide Conserved, NoDup, SpliceRing;
  }

  lemma Aborts<T, O>(s: Exec<T, O>)
    requires Inv(s) && (s.phase == Fetching || s.phase == Visiting)
    ensures Legal(s, [Abort]) && Run(s, [Abort]).phase == Exited(false)
  {
    hide Inv;
    var one: seq<Label<T, O>> := [Abort];
    assert one[1..] == [];
  }
}
