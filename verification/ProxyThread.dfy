// The loop of persistentThread on the pointers, left alone by the clients.

module ProxyThread {
  import opened ProxyModel
  import opened Wrappers
  import opened ProxyLinks
  import opened ProxyHeap
  import opened ProxyRuns
  import opened ProxyProgress

  lemma TookNext<T, O>(s: Exec<T, O>, l: Label<T, O>, s': Exec<T, O>)
    requires Took(s, l, s')
    ensures Inv(s) && Enabled(s, l) && Next(s, l) == s' && Inv(s')
  {
    NextKeepsInv(s, l);
  }

  // One more step of a run.
  lemma Extend<T, O>(s0: Exec<T, O>, ls: seq<Label<T, O>>, s: Exec<T, O>, l: Label<T, O>)
    requires Inv(s0) && Legal(s0, ls) && Run(s0, ls) == s && Inv(s) && Enabled(s, l)
    ensures Legal(s0, ls + [l]) && Run(s0, ls + [l]) == Next(s, l)
    ensures Iterations(ls + [l]) == Iterations(ls) + (if l.Splice? then 1 else 0)
  {
    hide Inv, Next, Enabled;
    var one: seq<Label<T, O>> := [l];
    assert one[1..] == [];
    RunConcat(s0, ls, one);
    IterationsConcat(ls, l);
  }

  lemma {:induction false} IterationsConcat<T, O>(ls: seq<Label<T, O>>, l: Label<T, O>)
    ensures Iterations(ls + [l]) == Iterations(ls) + (if l.Splice? then 1 else 0)
  {
    if ls == [] {
      var one: seq<Label<T, O>> := [l];
      assert ls + [l] == one && one[1..] == [];
    } else {
      assert (ls + [l])[1..] == ls[1..] + [l];
      IterationsConcat(ls[1..], l);
    }
  }

  lemma {:induction false} DrainingConcat<T, O>(s: Exec<T, O>, ls: seq<Label<T, O>>, l: Label<T, O>)
    requires Draining(s, ls) && Drains(Run(s, ls), l)
    ensures Draining(s, ls + [l])
    decreases |ls|
  {
    hide Drains, Next;
    if ls == [] {
      var one: seq<Label<T, O>> := [l];
      assert ls + [l] == one && one[1..] == [];
    } else {
      assert (ls + [l])[1..] == ls[1..] + [l];
      DrainingConcat(Next(s, ls[0]), ls[1..], l);
    }
  }

  // A run so far, from s0 to s, in which nobody appends and every callback makes headway.
  ghost predicate Path<T, O>(s0: Exec<T, O>, ls: seq<Label<T, O>>, s: Exec<T, O>) {
    Inv(s0) && Legal(s0, ls) && Draining(s0, ls) && Run(s0, ls) == s && Inv(s)
  }

  lemma Further<T, O>(s0: Exec<T, O>, ls: seq<Label<T, O>>, s: Exec<T, O>, l: Label<T, O>, s': Exec<T, O>)
    requires Path(s0, ls, s) && Took(s, l, s') && Drains(s, l)
    ensures Path(s0, ls + [l], s')
    ensures Iterations(ls + [l]) == Iterations(ls) + (if l.Splice? then 1 else 0)
  {
    TookNext(s, l, s');
    Extend(s0, ls, s, l);
    DrainingConcat(s0, ls, l);
    hide Inv, Legal, Draining, Run, Next, Took, Drains, Enabled;
  }

  // What an iteration does to the work that is left.
  lemma VisitLeaves<T, O>(s: Exec<T, O>, work: nat, quiet: bool, s': Exec<T, O>)
    requires Took(s, Visit(work, quiet), s')
    requires s.Left(Current(s)) == 0 || work < s.Left(Current(s))
    ensures s'.todo == if s.Left(Current(s)) == 0 then s.todo else s.todo[Current(s) := work]
    ensures s'.phase == Splicing && Drains(s, Visit(work, quiet))
  {
    hide Conserved, NoDup;
  }

  lemma SpliceLeaves<T, O>(s: Exec<T, O>, s': Exec<T, O>)
    requires Took(s, Splice, s')
    ensures s'.todo == s.todo && (s'.phase == Fetching || s'.phase == Visiting) && Drains(s, Splice)
  {
    hide Conserved, NoDup, SpliceRing;
  }

  lemma FetchLeaves<T, O>(s: Exec<T, O>, s': Exec<T, O>)
    requires Took(s, Fetch, s') && s.ring != []
    ensures s'.todo == s.todo && s'.phase == Visiting && s'.ring == s.ring && Drains(s, Fetch)
  {
    hide Conserved, NoDup;
  }

  // A callback, over the iterations: what the operation still needs after a call in which it
  // needed n before, and whether it reports itself idle. Every call brings it nearer to its end.
  ghost predicate Progresses<O(!new)>(callback: (nat, O, nat) -> (nat, bool)) {
    forall i, o, n {:trigger callback(i, o, n)} :: n > 0 ==> callback(i, o, n).0 < n
  }

  // One iteration with work to do: the callback and the splice (csrc/proxy.cc:49-92).
  method Iterate<T(==), O(==,!new)>(h: ProxyHandler<T, O>, needs: map<O, nat>,
                                   callback: (nat, O, nat) -> (nat, bool), i: nat,
                                   ghost s0: Exec<T, O>, ghost ls: seq<Label<T, O>>)
    returns (left: map<O, nat>, ghost more: seq<Label<T, O>>)
    requires h.Valid() && h.view.phase == Visiting && h.view.todo == needs && Path(s0, ls, h.view)
      && Progresses(callback)
    modifies h
    ensures h.Valid() && (h.view.phase == Fetching || h.view.phase == Visiting) && h.view.todo == left
    ensures Path(s0, more, h.view) && Iterations(more) == Iterations(ls) + 1
  {
    hide Represents, Took, Inv, Path, Drains;
    ghost var s := h.view;
    CursorFacts(h.Mem(), s);
    var op := h.op.value;
    var work, quiet := 0, true;
    left := needs;
    if op in needs && needs[op] > 0 {
      var outcome := callback(i, op, needs[op]);
      work, quiet := outcome.0, outcome.1;
      left := needs[op := work];
    }
    h.CallProgress(if work == 0 then OpNone else OpProgress, quiet, work);
    VisitLeaves(s, work, quiet, h.view);
    Further(s0, ls, s, Visit(work, quiet), h.view);
    more := ls + [Visit(work, quiet)];
    ghost var s1 := h.view;
    var yielded := h.SpliceAndAdvance();
    SpliceLeaves(s1, h.view);
    Further(s0, more, s1, Splice, h.view);
    more := more + [Splice];
  }

  lemma PathBound<T, O>(s0: Exec<T, O>, ls: seq<Label<T, O>>, s: Exec<T, O>)
    requires Path(s0, ls, s)
    ensures Iterations(ls) <= 2 * TotalLoad(s0) + 1
  {
    DrainBound(s0, ls);
  }

  lemma PathStart<T, O>(s0: Exec<T, O>)
    requires Inv(s0)
    ensures Path(s0, [], s0)
  {
  }

  // The loop of csrc/proxy.cc:32-93 until it finds no more operations, with any callbacks. `needs`
  // is the number of calls each operation still needs. What the loop does to the pointers is a
  // run of the machine; it makes at most 2 * (calls + operations) + 1 iterations and leaves
  // handler->ops null.
  method PersistentThread<T(==), O(==,!new)>(h: ProxyHandler<T, O>, needs: map<O, nat>,
      callback: (nat, O, nat) -> (nat, bool))
    returns (iterations: nat, ghost ls: seq<Label<T, O>>)
    requires Progresses(callback)
    requires h.Valid() && Inv(h.view) && h.view.phase == Fetching && h.view.todo == needs
    modifies h
    ensures h.Valid() && h.ops == None && h.view.ring == []
    ensures Path(old(h.view), ls, h.view)
    ensures iterations == Iterations(ls) <= 2 * TotalLoad(old(h.view)) + 1
  {
    hide Represents, Took, Inv, Path, Drains, TotalLoad, Progresses;
    ghost var s0 := h.view;
    var left := needs;
    iterations, ls := 0, [];
    PathStart(s0);
    PathBound(s0, ls, h.view);
    CursorFacts(h.Mem(), h.view);
    while h.ops != None
      invariant h.Valid() && (h.view.phase == Fetching || h.view.phase == Visiting) && h.view.todo == left
      invariant h.view.ring == [] <==> h.ops == None
      invariant h.op == None <==> h.view.phase == Fetching
      invariant Path(s0, ls, h.view) && iterations == Iterations(ls) <= 2 * TotalLoad(s0) + 1
      decreases 2 * TotalLoad(s0) + 1 - iterations
    {
      if h.op == None {
        ghost var s := h.view;
        var leave := h.FetchOrWait();
        FetchLeaves(s, h.view);
        Further(s0, ls, s, Fetch, h.view);
        ls := ls + [Fetch];
      }
      left, ls := Iterate(h, left, callback, iterations, s0, ls);
      iterations := iterations + 1;
      PathBound(s0, ls, h.view);
      CursorFacts(h.Mem(), h.view);
    }
  }

  // ---------------------------------------------------------------- any run, on the links

  // Cell args is ready to be appended: a client holds it and has stored its tail cell and state.
  ghost predicate Prepared<T, O>(h: ProxyHandler<T, O>, args: O, tail: T, st: OpState)
    reads h
  {
    && args in h.view.held && args in h.proxyTail && h.proxyTail[args] == Some(tail)
    && args in h.state && h.state[args] == st && tail in h.tailCell
  }

  lemma StaysHeld<T, O>(s: Exec<T, O>, l: Label<T, O>, s': Exec<T, O>, args: O)
    requires Took(s, l, s') && args in s.held && !(l.Append? && l.op == args)
    ensures args in s'.held
  {
    hide Inv, SpliceRing, Stock, InsertAfter;
  }

  // A client stores what an append needs, and appends. A cell that someone else has prepared is
  // still prepared then.
  method PerformAppend<T(==), O(==)>(h: ProxyHandler<T, O>, tail: T, op: O, work: nat, ghost args: O, ghost t: T,
      ghost st: OpState)
    requires h.Valid() && op in h.view.held
    modifies h
    ensures h.Valid() && Took(old(h.view), Append(tail, op, work), h.view)
    ensures old(Prepared(h, args, t, st)) && args != op ==> Prepared(h, args, t, st)
  {
    hide Represents, Took, Inv;
    ghost var s := h.view;
    h.Prepare(op, tail, if work == 0 then OpNone else OpReady);
    h.ProxyArgsAppend(op, work);
    if args in s.held && args != op {
      StaysHeld(s, Append(tail, op, work), h.view, args);
    }
  }

  method PerformAlloc<T(==), O(==)>(h: ProxyHandler<T, O>, slab: seq<O>, ghost args: O, ghost t: T, ghost st: OpState)
    requires h.Valid() && (h.pool == None ==> FreshSlab(h.view, slab))
    modifies h
    ensures h.Valid() && Took(old(h.view), Alloc(slab), h.view)
    ensures old(Prepared(h, args, t, st)) ==> Prepared(h, args, t, st)
  {
    hide Represents, Took, Inv, FreshSlab;
    ghost var s := h.view;
    var elem := h.AllocateArgs(slab);
    if args in s.held {
      StaysHeld(s, Alloc(slab), h.view, args);
    }
  }

  // The steps of the thread and those that only touch `stop`.
  method PerformOther<T(==), O(==)>(h: ProxyHandler<T, O>, l: Label<T, O>, ghost args: O, ghost t: T, ghost st: OpState)
    requires h.Valid() && Enabled(h.view, l) && !l.Append? && !l.Alloc?
    modifies h
    ensures h.Valid() && Took(old(h.view), l, h.view)
    ensures old(Prepared(h, args, t, st)) ==> Prepared(h, args, t, st)
  {
    hide Represents, Took, Inv;
    ghost var s := h.view;
    match l {
      case Start => h.ProxyStart();
      case Destroy => h.ProxyDestroy();
      case Wake => h.WakeUp();
      case Abort => h.LeaveOnAbort();
      case Fetch => var leave := h.FetchOrWait();
      case Visit(left, quiet) => h.CallProgress(if left == 0 then OpNone else OpProgress, quiet, left);
      case Splice => var yielded := h.SpliceAndAdvance();
      case _ =>
    }
    if args in s.held {
      StaysHeld(s, l, h.view, args);
    }
  }

  lemma PoolEmpty<T, O>(m: Memory<T, O>, s: Exec<T, O>)
    requires Represents(m, s)
    ensures Inv(s) && (m.pool == None <==> s.free == [])
  {
    hide Linear, Cycle, Labelled, ChainsLinked, HeldClear, TailsMatch, RingLinked, Inv;
  }

  // Any step that can be taken is taken by the pointer code, and keeps a prepared cell prepared,
  // unless it is the append of that cell.
  method Perform<T(==), O(==)>(h: ProxyHandler<T, O>, l: Label<T, O>, ghost args: O, ghost t: T, ghost st: OpState)
    requires h.Valid() && Enabled(h.view, l)
    modifies h
    ensures h.Valid() && Took(old(h.view), l, h.view)
    ensures old(Prepared(h, args, t, st)) && !(l.Append? && l.op == args) ==> Prepared(h, args, t, st)
  {
    hide Represents, Took, Inv, FreshSlab, Prepared;
    PoolEmpty(h.Mem(), h.view);
    if l.Append? {
      PerformAppend(h, l.tail, l.op, l.work, args, t, st);
    } else if l.Alloc? {
      PerformAlloc(h, l.slab, args, t, st);
    } else {
      PerformOther(h, l, args, t, st);
    }
  }

  lemma {:induction false} LegalAt<T, O>(s: Exec<T, O>, ls: seq<Label<T, O>>, i: nat)
    requires Legal(s, ls) && i < |ls|
    ensures Enabled(Run(s, ls[..i]), ls[i]) && Run(s, ls[..i + 1]) == Next(Run(s, ls[..i]), ls[i])
  {
    hide Next, Enabled;
    var pre, one, post := ls[..i], [ls[i]], ls[i + 1..];
    assert ls == pre + (one + post) && ls[..i + 1] == pre + one;
    RunConcat(s, pre, one + post);
    RunConcat(Run(s, pre), one, post);
    RunConcat(s, pre, one);
    assert one[1..] == [];
    assert Run(Run(s, pre), one) == Run(Next(Run(s, pre), ls[i]), []);
  }

  // Any run of clients and thread, step by step in the pointer code, ends in the links that
  // represent the state in which the machine ends.
  method PerformRun<T(==), O(==)>(h: ProxyHandler<T, O>, ls: seq<Label<T, O>>, ghost args: O, ghost t: T,
      ghost st: OpState)
    requires h.Valid() && Legal(h.view, ls)
    modifies h
    ensures h.Valid() && h.view == Run(old(h.view), ls)
    ensures old(Prepared(h, args, t, st)) && (forall i :: 0 <= i < |ls| && ls[i].Append? ==> ls[i].op != args) ==>
      Prepared(h, args, t, st)
  {
    hide Represents, Took, Inv, Legal, Enabled, Prepared, Next, Run;
    ghost var s0 := h.view;
    assert ls[..0] == [];
    RunNothing(s0);
    for i := 0 to |ls|
      invariant h.Valid() && h.view == Run(s0, ls[..i])
      invariant old(Prepared(h, args, t, st)) && (forall i :: 0 <= i < |ls| && ls[i].Append? ==> ls[i].op != args) ==>
        Prepared(h, args, t, st)
    {
      LegalAt(s0, ls, i);
      ghost var s := h.view;
      Perform(h, ls[i], args, t, st);
      TookNext(s, ls[i], h.view);
    }
    assert ls[..|ls|] == ls;
  }

  lemma RunNothing<T, O>(s: Exec<T, O>)
    ensures Run(s, []) == s
  {
  }

  // From a new handler; `args` and `t` play no part.
  method PerformAll<T(==), O(==)>(ls: seq<Label<T, O>>, ghost args: O, ghost t: T) returns (h: ProxyHandler<T, O>)
    requires Legal(Init<T, O>(), ls)
    ensures fresh(h) && h.Valid() && h.view == Run(Init<T, O>(), ls)
  {
    h := new ProxyHandler();
    PerformRun(h, ls, args, t, OpNone);
  }

  lemma AppendedLast<T, O>(s: Exec<T, O>, t: T, o: O, work: nat, s': Exec<T, O>)
    requires Took(s, Append(t, o, work), s')
    ensures o !in s'.held && s'.Chain(t) != [] && Last(s'.Chain(t)) == Some(o)
  {
    hide Inv, InsertAfter;
  }

  // A client that is interrupted after storing its state, by whatever the thread and other clients
  // do, finds what it stored when it goes on to append.
  method AppendAfterOthers<T(==), O(==)>(h: ProxyHandler<T, O>, args: O, tail: T, ls: seq<Label<T, O>>, ghost work: nat)
    requires h.Valid() && args in h.view.held && work > 0
    requires Legal(h.view, ls) && forall i :: 0 <= i < |ls| && ls[i].Append? ==> ls[i].op != args
    modifies h
    ensures h.Valid() && Took(Run(old(h.view), ls), Append(tail, args, work), h.view)
    ensures args !in h.view.held && h.view.Chain(tail) != [] && Last(h.view.Chain(tail)) == Some(args)
  {
    hide Represents, Took, Inv, Legal, Run;
    h.Prepare(args, tail, OpReady);
    PerformRun(h, ls, args, tail, OpReady);
    ghost var s := h.view;
    h.ProxyArgsAppend(args, work);
    AppendedLast(s, tail, args, work, h.view);
  }

  // ---------------------------------------------------------------- what the pointers tell a client

  lemma TailIs<T, O>(m: Memory<T, O>, s: Exec<T, O>, t: T)
    requires Represents(m, s) && t in m.last
    ensures m.last[t] == Last(s.Chain(t))
  {
    hide Linear, Labelled, ChainsLinked, HeldClear, Conserved, RingLinked, EndsMatch;
  }

  lemma LastOfSuffix<A>(all: seq<A>, done: seq<A>, rest: seq<A>)
    requires done <= all && all[|done|..] == rest
    ensures rest == [] <==> all == done
    ensures rest != [] ==> Last(rest) == Last(all)
  {
    assert all == done + rest;
  }

  // After any run, a tail cell is null exactly if every operation appended with it has been
  // recycled, and otherwise names the one appended last; and handler->ops, which
  // ProxyWaitAllOpFinished watches (csrc/proxy.cc:217-221), is null exactly if that is so for
  // every tail cell.
  lemma PointersTell<T, O>(m: Memory<T, O>, ls: seq<Label<T, O>>, t: T)
    requires Legal(Init(), ls) && Represents(m, Run(Init(), ls)) && t in m.last
    ensures m.last[t] == None <==> Appended(ls, t) == Recycled(Init(), ls, t)
    ensures m.last[t] != None ==> m.last[t] == Last(Appended(ls, t))
    ensures m.ops == None <==> forall u :: Appended(ls, u) == Recycled(Init(), ls, u)
  {
    hide Legal, Run, Appended, Recycled, Represents, Init;
    var s := Run(Init<T, O>(), ls);
    EmptyMeansAllDone(ls);
    RecycledPrefix(ls, t);
    CursorFacts(m, s);
    TailIs(m, s, t);
    LastOfSuffix(Appended(ls, t), Recycled(Init(), ls, t), s.Chain(t));
  }
}
