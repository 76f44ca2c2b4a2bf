// Whole runs of the executor: any interleaving of client calls with the thread's steps.

module ProxyRuns {
  import opened ProxyModel

  ghost function Next<T, O>(s: Exec<T, O>, l: Label<T, O>): Exec<T, O> {
    if Inv(s) && Enabled(s, l) then Step(s, l) else s
  }

  ghost function Run<T, O>(s: Exec<T, O>, ls: seq<Label<T, O>>): Exec<T, O>
    decreases |ls|
  {
    if ls == [] then s else Run(Next(s, ls[0]), ls[1..])
  }

  // Every label of the run is a step the program or a client can take there.
  ghost predicate Legal<T, O>(s: Exec<T, O>, ls: seq<Label<T, O>>)
    decreases |ls|
  {
    ls == [] || (Enabled(s, ls[0]) && Legal(Next(s, ls[0]), ls[1..]))
  }

  lemma NextKeepsInv<T, O>(s: Exec<T, O>, l: Label<T, O>)
    requires Inv(s)
    ensures Inv(Next(s, l))
  {
    if Enabled(s, l) {
      StepKeepsInv(s, l);
    }
  }

  // The invariant holds in every reachable state.
  lemma {:induction false} RunKeepsInv<T, O>(s: Exec<T, O>, ls: seq<Label<T, O>>)
    requires Inv(s)
    ensures Inv(Run(s, ls))
    decreases |ls|
  {
    if ls != [] {
      NextKeepsInv(s, ls[0]);
      RunKeepsInv(Next(s, ls[0]), ls[1..]);
    }
  }

  lemma InitInv<T, O>()
    ensures Inv(Init<T, O>())
  {
  }

  lemma {:induction false} RunConcat<T, O>(s: Exec<T, O>, a: seq<Label<T, O>>, b: seq<Label<T, O>>)
    ensures Run(s, a + b) == Run(Run(s, a), b)
    ensures Legal(s, a + b) <==> Legal(s, a) && Legal(Run(s, a), b)
    decreases |a|
  {
    if a == [] {
      assert a + b == b;
    } else {
      assert (a + b)[1..] == a[1..] + b;
      RunConcat(Next(s, a[0]), a[1..], b);
    }
  }

  // ---------------------------------------------------------------- order within a peer queue

  ghost function AppendedBy<T, O>(l: Label<T, O>, t: T): seq<O> {
    if l.Append? && l.tail == t then [l.op] else []
  }

  ghost function RecycledBy<T, O>(s: Exec<T, O>, l: Label<T, O>, t: T): seq<O> {
    if Inv(s) && Enabled(s, l) && l.Splice? && Frees(s) && NextTail(s) == t then [s.Chain(t)[0]] else []
  }

  // The operations appended with tail cell t during a run, in order.
  ghost function Appended<T, O>(ls: seq<Label<T, O>>, t: T): seq<O> {
    if ls == [] then [] else AppendedBy(ls[0], t) + Appended(ls[1..], t)
  }

  // The operations of t put back on the free list during a run, in order.
  ghost function Recycled<T, O>(s: Exec<T, O>, ls: seq<Label<T, O>>, t: T): seq<O>
    decreases |ls|
  {
    if ls == [] then [] else RecycledBy(s, ls[0], t) + Recycled(Next(s, ls[0]), ls[1..], t)
  }

  // An append puts its operation last in the queue of its tail cell and touches no other queue.
  lemma AppendQueue<T, O>(s: Exec<T, O>, u: T, o: O, work: nat, t: T)
    ensures Enqueue(s, u, o, work).Chain(t) == s.Chain(t) + (if u == t then [o] else [])
    ensures Enqueue(s, u, o, work).free == s.free && Enqueue(s, u, o, work).held == s.held - {o}
  {
    hide InsertAfter;
  }

  // A splice moves the finished operation after the cursor, if there is one, from the head of its
  // queue to the head of the free list, and touches no other queue.
  lemma SpliceQueue<T, O>(s: Exec<T, O>, t: T)
    requires Shape(s) && s.ring != []
    ensures s.Chain(t) == (if Frees(s) && NextTail(s) == t then [s.Chain(t)[0]] else []) + SpliceNext(s).Chain(t)
    ensures SpliceNext(s).free == (if Frees(s) then [s.Chain(NextTail(s))[0]] else []) + s.free
    ensures SpliceNext(s).held == s.held
  {
    hide SpliceRing, NoDup;
    if Frees(s) && NextTail(s) == t {
      assert s.Chain(t) == [s.Chain(t)[0]] + s.Chain(t)[1..];
    }
  }

  lemma StepQueue<T, O>(s: Exec<T, O>, l: Label<T, O>, t: T)
    requires Inv(s) && Enabled(s, l)
    ensures s.Chain(t) + AppendedBy(l, t) == RecycledBy(s, l, t) + Next(s, l).Chain(t)
  {
    hide Conserved, Shape, FreshSlab, SpliceNext, Frees, Enqueue;
    match l
    case Append(u, o, work) => AppendQueue(s, u, o, work, t);
    case Splice =>
      CursorInRing(s);
      SpliceQueue(s, t);
    case _ =>
  }

  lemma CursorInRing<T, O>(s: Exec<T, O>)
    requires Shape(s) && s.phase == Splicing
    ensures s.ring != [] && s.Chain(NextTail(s)) != [] && s.anchor < |s.ring|
  {
    hide NoDup;
    assert NextTail(s) in s.ring;
  }

  // Per-peer FIFO over whole runs: what was recycled, followed by what is still queued, is
  // what was appended.
  lemma {:induction false} PeerFifo<T, O>(s: Exec<T, O>, ls: seq<Label<T, O>>, t: T)
    requires Inv(s) && Legal(s, ls)
    ensures s.Chain(t) + Appended(ls, t) == Recycled(s, ls, t) + Run(s, ls).Chain(t)
    decreases |ls|
  {
    if ls != [] {
      var l, s1, rest := ls[0], Next(s, ls[0]), ls[1..];
      hide Inv, Next, Enabled, AppendedBy, RecycledBy;
      NextKeepsInv(s, l);
      StepQueue(s, l, t);
      PeerFifo(s1, rest, t);
      Shuffle(s.Chain(t), AppendedBy(l, t), RecycledBy(s, l, t), s1.Chain(t),
              Appended(rest, t), Recycled(s1, rest, t), Run(s1, rest).Chain(t));
    }
  }

  lemma Shuffle<A>(c: seq<A>, a: seq<A>, r: seq<A>, c1: seq<A>, a1: seq<A>, r1: seq<A>, c2: seq<A>)
    requires c + a == r + c1 && c1 + a1 == r1 + c2
    ensures c + (a + a1) == (r + r1) + c2
  {
    assert c + (a + a1) == (c + a) + a1 == r + (c1 + a1) == r + (r1 + c2) == (r + r1) + c2;
  }

  // Seen from an empty handler: the recycled operations of a peer are a prefix of the appended
  // ones, and its queue is the rest.
  lemma RecycledPrefix<T, O>(ls: seq<Label<T, O>>, t: T)
    requires Legal(Init(), ls)
    ensures Recycled(Init(), ls, t) <= Appended(ls, t)
    ensures Appended(ls, t)[|Recycled(Init(), ls, t)|..] == Run(Init(), ls).Chain(t)
  {
    InitInv<T, O>();
    PeerFifo(Init(), ls, t);
    assert Init<T, O>().Chain(t) == [];
    assert Appended(ls, t) == Recycled(Init(), ls, t) + Run(Init(), ls).Chain(t);
  }

  // progress is only ever called on the oldest operation of its peer that is not recycled yet.
  lemma CallsTheOldest<T, O>(ls: seq<Label<T, O>>)
    requires Legal(Init(), ls) && Run(Init(), ls).phase == Visiting
    ensures var s := Run(Init<T, O>(), ls);
      s.ring != [] && s.Chain(s.ring[0]) != []
    ensures var s := Run(Init<T, O>(), ls);
      var k := |Recycled(Init(), ls, s.ring[0])|;
      k < |Appended(ls, s.ring[0])| && Current(s) == Appended(ls, s.ring[0])[k]
  {
    InitInv<T, O>();
    RunKeepsInv(Init<T, O>(), ls);
    var s := Run(Init<T, O>(), ls);
    assert s.ring[0] in s.chains;
    RecycledPrefix(ls, s.ring[0]);
  }

  // ops == NULL, which ProxyWaitAllOpFinished waits for, says that every operation appended so
  // far, of any peer, has been recycled.
  lemma EmptyMeansAllDone<T, O>(ls: seq<Label<T, O>>)
    requires Legal(Init(), ls)
    ensures Run(Init(), ls).ring == [] <==> forall t :: Appended(ls, t) == Recycled(Init(), ls, t)
  {
    InitInv<T, O>();
    RunKeepsInv(Init<T, O>(), ls);
    var s := Run(Init<T, O>(), ls);
    if s.ring == [] {
      forall t ensures Appended(ls, t) == Recycled(Init(), ls, t) {
        RecycledPrefix(ls, t);
        assert s.Chain(t) == [];
      }
    } else {
      var t := s.ring[0];
      assert t in s.chains;
      RecycledPrefix(ls, t);
      assert |Appended(ls, t)| > |Recycled(Init(), ls, t)|;
    }
  }

  // ---------------------------------------------------------------- cells

  // In every reachable state each slab cell has exactly one place: a place in the free list,
  // the hands of a client, or a place in the queue of one peer.
  lemma OnePlace<T, O>(ls: seq<Label<T, O>>, o: O)
    requires Legal(Init(), ls)
    ensures var s := Run(Init<T, O>(), ls);
      o in s.cells <==>
        (o in s.free && o !in s.held && forall t :: t in s.chains ==> o !in s.chains[t])
        || (o !in s.free && o in s.held && forall t :: t in s.chains ==> o !in s.chains[t])
        || (o !in s.free && o !in s.held && exists t :: t in s.chains && o in s.chains[t])
    ensures var s := Run(Init<T, O>(), ls);
      && NoDup(s.free) && |s.cells| == 32 * s.slabs
      && (forall t :: t in s.chains ==> NoDup(s.chains[t]))
      && (forall t, u :: t in s.chains && u in s.chains && o in s.chains[t] && o in s.chains[u] ==> t == u)
  {
    InitInv<T, O>();
    RunKeepsInv(Init<T, O>(), ls);
    Separation(Run(Init<T, O>(), ls));
  }

  // allocateArgs never hands out a cell that is queued, that a client holds, or that is free
  // afterwards.
  lemma AllocatesUnreachable<T, O>(s: Exec<T, O>, slab: seq<O>)
    requires Inv(s) && Enabled(s, Alloc(slab))
    ensures Stock(s, slab) != []
    ensures var o, s' := Stock(s, slab)[0], Next(s, Alloc(slab));
      && o !in s.held && s'.held == s.held + {o} && o !in s'.free
      && (forall t :: t in s.chains ==> o !in s.chains[t]) && s'.chains == s.chains
      && o in s'.cells && s.cells <= s'.cells
  {
    Separation(s);
    AllocateKeeps(s, slab);
    Separation(Allocate(s, slab));
    assert Stock(s, slab)[0] in Allocate(s, slab).held;
  }

  // The cells that are in use: handed out, or queued.
  ghost function Used<T, O>(s: Exec<T, O>): nat {
    |s.held| + |Queued(s.ring, s.chains)|
  }

  // The most that were in use at any time of the run.
  ghost function Peak<T, O>(s: Exec<T, O>, ls: seq<Label<T, O>>): nat
    decreases |ls|
  {
    if ls == [] then Used(s)
    else
      var rest := Peak(Next(s, ls[0]), ls[1..]);
      if rest > Used(s) then rest else Used(s)
  }

  lemma Sizes<T, O>(s: Exec<T, O>)
    requires Inv(s)
    ensures |s.free| + Used(s) == 32 * s.slabs
  {
    hide Shape, Queued;
    var all := multiset(s.free) + multiset(s.held) + Queued(s.ring, s.chains);
    assert |all| == |s.free| + |s.held| + |Queued(s.ring, s.chains)|;
    assert |multiset(s.cells)| == |s.cells|;
  }

  lemma StepSlabs<T, O>(s: Exec<T, O>, l: Label<T, O>)
    requires Inv(s) && Enabled(s, l)
    ensures var r := Next(s, l);
      if l.Alloc? && s.free == [] then r.slabs == s.slabs + 1 && |r.free| == 31
      else r.slabs == s.slabs && |r.free| >= |s.free| - (if l.Alloc? then 1 else 0)
  {
    hide Conserved, NoDup, SpliceRing, InsertAfter;
  }

  // `peak` is the most that has been in use so far, and the slabs are just enough for it.
  lemma {:induction false} SlabsFollow<T, O>(s: Exec<T, O>, ls: seq<Label<T, O>>, peak: nat) returns (most: nat)
    requires Inv(s) && Legal(s, ls) && Used(s) <= peak <= 32 * s.slabs < peak + 32
    ensures most == (if Peak(s, ls) > peak then Peak(s, ls) else peak)
    ensures Inv(Run(s, ls)) && most <= 32 * Run(s, ls).slabs < most + 32
    decreases |ls|
  {
    hide Inv, Next, Enabled, Used;
    if ls == [] {
      most := peak;
    } else {
      var r := Next(s, ls[0]);
      NextKeepsInv(s, ls[0]);
      Sizes(s);
      Sizes(r);
      StepSlabs(s, ls[0]);
      most := SlabsFollow(r, ls[1..], if Used(r) > peak then Used(r) else peak);
    }
  }

  // The pool grows only when it must: the slabs are as many as the most cells ever in use need.
  lemma SlabsForPeak<T, O>(ls: seq<Label<T, O>>)
    requires Legal(Init(), ls)
    ensures Run(Init(), ls).slabs == (Peak(Init(), ls) + 31) / 32
  {
    InitInv<T, O>();
    var most := SlabsFollow(Init<T, O>(), ls, 0);
  }

  // ---------------------------------------------------------------- sleeping and stopping

  // Whether some append has had no later ProxyStart, given whether that was so before the run.
  ghost function Unstarted<T, O>(before: bool, ls: seq<Label<T, O>>): bool
    decreases |ls|
  {
    if ls == [] then before
    else Unstarted(if ls[0].Append? then true else if ls[0].Start? then false else before, ls[1..])
  }

  ghost predicate MaySleep<T, O>(s: Exec<T, O>, unstarted: bool) {
    s.phase == Parked(false) ==> !s.stop && (s.ring == [] || unstarted)
  }

  lemma SleepStep<T, O>(s: Exec<T, O>, unstarted: bool, l: Label<T, O>)
    requires Inv(s) && Enabled(s, l) && MaySleep(s, unstarted)
    ensures MaySleep(Next(s, l), if l.Append? then true else if l.Start? then false else unstarted)
  {
    hide Conserved, NoDup, FreshSlab, SpliceQueues, SpliceRing;
  }

  // No lost wakeup: a thread that sleeps with no signal on the way has been left without work,
  // or with an append that no ProxyStart followed; and it has not been told to stop.
  lemma {:induction false} NoLostWakeup<T, O>(s: Exec<T, O>, unstarted: bool, ls: seq<Label<T, O>>)
    requires Inv(s) && Legal(s, ls) && MaySleep(s, unstarted)
    ensures MaySleep(Run(s, ls), Unstarted(unstarted, ls))
    decreases |ls|
  {
    if ls != [] {
      hide Inv, Next, MaySleep;
      NextKeepsInv(s, ls[0]);
      var u := if ls[0].Append? then true else if ls[0].Start? then false else unstarted;
      SleepStep(s, unstarted, ls[0]);
      NoLostWakeup(Next(s, ls[0]), u, ls[1..]);
    }
  }

  lemma WakesUp<T, O>(ls: seq<Label<T, O>>)
    requires Legal(Init(), ls)
    ensures MaySleep(Run(Init(), ls), Unstarted(false, ls))
  {
    InitInv<T, O>();
    NoLostWakeup(Init<T, O>(), false, ls);
  }

  // The client makes no append once it has called ProxyDestroy.
  ghost predicate Obedient<T, O>(destroyed: bool, ls: seq<Label<T, O>>)
    decreases |ls|
  {
    ls == [] || (!(destroyed && ls[0].Append?) && Obedient(destroyed || ls[0].Destroy?, ls[1..]))
  }

  ghost predicate StoppedClean<T, O>(s: Exec<T, O>, destroyed: bool) {
    && (s.stop ==> destroyed)
    && (s.phase == Exited(true) ==> destroyed && s.ring == [])
  }

  lemma StopStep<T, O>(s: Exec<T, O>, destroyed: bool, l: Label<T, O>)
    requires Inv(s) && Enabled(s, l) && StoppedClean(s, destroyed) && !(destroyed && l.Append?)
    ensures StoppedClean(Next(s, l), destroyed || l.Destroy?)
  {
    hide Conserved, NoDup, FreshSlab, SpliceRing;
  }

  lemma {:induction false} StopKeeps<T, O>(s: Exec<T, O>, destroyed: bool, ls: seq<Label<T, O>>) returns (d: bool)
    requires Inv(s) && Legal(s, ls) && Obedient(destroyed, ls) && StoppedClean(s, destroyed)
    ensures StoppedClean(Run(s, ls), d)
    decreases |ls|
  {
    hide Inv, Next, StoppedClean;
    if ls == [] {
      d := destroyed;
    } else {
      NextKeepsInv(s, ls[0]);
      StopStep(s, destroyed, ls[0]);
      d := StopKeeps(Next(s, ls[0]), destroyed || ls[0].Destroy?, ls[1..]);
    }
  }

  // The thread leaves through `stop` only when everything appended has been recycled.
  lemma StopsOnlyWhenDone<T, O>(ls: seq<Label<T, O>>, t: T)
    requires Legal(Init(), ls) && Obedient(false, ls) && Run(Init(), ls).phase == Exited(true)
    ensures Appended(ls, t) == Recycled(Init(), ls, t)
  {
    InitInv<T, O>();
    var d := StopKeeps(Init<T, O>(), false, ls);
    EmptyMeansAllDone(ls);
  }

  // ---------------------------------------------------------------- after the end

  lemma EndedStep<T, O>(s: Exec<T, O>, l: Label<T, O>, t: T)
    requires Inv(s) && Enabled(s, l) && s.phase.Exited?
    ensures Next(s, l).phase == s.phase && RecycledBy(s, l, t) == []
  {
    hide Conserved, NoDup, FreshSlab, SpliceQueues, InsertAfter;
  }

  // A thread that has ended stays away: no run recycles anything any more.
  lemma {:induction false} Ended<T, O>(s: Exec<T, O>, ls: seq<Label<T, O>>, t: T)
    requires Inv(s) && Legal(s, ls) && s.phase.Exited?
    ensures Run(s, ls).phase == s.phase && Recycled(s, ls, t) == []
    decreases |ls|
  {
    hide Inv, Next, Enabled, RecycledBy;
    if ls != [] {
      NextKeepsInv(s, ls[0]);
      EndedStep(s, ls[0], t);
      Ended(Next(s, ls[0]), ls[1..], t);
    }
  }

  lemma {:induction false} RecycledConcat<T, O>(s: Exec<T, O>, a: seq<Label<T, O>>, b: seq<Label<T, O>>, t: T)
    ensures Recycled(s, a + b, t) == Recycled(s, a, t) + Recycled(Run(s, a), b, t)
    decreases |a|
  {
    hide Next, RecycledBy;
    if a == [] {
      assert a + b == b;
    } else {
      assert (a + b)[1..] == a[1..] + b;
      RecycledConcat(Next(s, a[0]), a[1..], b, t);
    }
  }

  // The abort flag ends the thread at once, whatever is queued, and for good: whoever appends or
  // starts later, nothing is recycled after it.
  lemma AbortIsFinal<T, O>(ls: seq<Label<T, O>>, later: seq<Label<T, O>>, t: T)
    requires Legal(Init(), ls + [Abort] + later)
    ensures Run(Init(), ls + [Abort] + later).phase == Exited(false)
    ensures Recycled(Init(), ls + [Abort] + later, t) == Recycled(Init(), ls, t)
  {
    hide Inv, Enabled, Next, RecycledBy, Init;
    var s0, one: seq<Label<T, O>> := Init<T, O>(), [Abort];
    assert one[1..] == [];
    InitInv<T, O>();
    RunKeepsInv(s0, ls);
    RunConcat(s0, ls, one);
    RunConcat(s0, ls + one, later);
    RecycledConcat(s0, ls, one, t);
    RecycledConcat(s0, ls + one, later, t);
    var s := Run(s0, ls);
    assert Enabled(s, Abort);
    AbortStep(s, t);
    NextKeepsInv(s, Abort);
    Ended(Next(s, Abort), later, t);
  }

  lemma AbortStep<T, O>(s: Exec<T, O>, t: T)
    requires Inv(s) && Enabled(s, Abort)
    ensures Next(s, Abort).phase == Exited(false) && RecycledBy(s, Abort, t) == []
  {
    hide Inv;
  }

  // ProxyStart, called after any run: it withdraws a stop and leaves nobody asleep if there is
  // work, does nothing otherwise, and never touches the operations.
  lemma StartWakes<T, O>(ls: seq<Label<T, O>>)
    requires Legal(Init(), ls)
    ensures Legal(Init(), ls + [Start])
    ensures var s, s' := Run(Init<T, O>(), ls), Run(Init<T, O>(), ls + [Start]);
      && (s.ring == [] ==> s' == s)
      && (s.ring != [] ==> !s'.stop && s'.phase != Parked(false))
      && (!s.phase.Parked? ==> s'.phase == s.phase)
      && s' == s.(stop := s'.stop, phase := s'.phase)
  {
    hide Inv, Init;
    var one: seq<Label<T, O>> := [Start];
    assert one[1..] == [];
    InitInv<T, O>();
    RunKeepsInv(Init<T, O>(), ls);
    RunConcat(Init<T, O>(), ls, one);
  }
}
