// Progress of the executor: draining, fairness between peers, and what one lap of the ring does.

module ProxyProgress {
  import opened ProxyModel
  import opened ProxyRuns

  // ---------------------------------------------------------------- remaining load

  // Queued operations plus the progress calls they still need.
  ghost function ChainLoad<O>(chain: seq<O>, todo: map<O, nat>): nat {
    if chain == [] then 0
    else (if chain[0] in todo then todo[chain[0]] else 0) + 1 + ChainLoad(chain[1..], todo)
  }

  ghost function Load<T, O>(ring: seq<T>, chains: map<T, seq<O>>, todo: map<O, nat>): nat {
    if ring == [] then 0
    else (if ring[0] in chains then ChainLoad(chains[ring[0]], todo) else 0) + Load(ring[1..], chains, todo)
  }

  ghost function TotalLoad<T, O>(s: Exec<T, O>): nat {
    Load(s.ring, s.chains, s.todo)
  }

  lemma LoadConcat<T, O>(a: seq<T>, b: seq<T>, chains: map<T, seq<O>>, todo: map<O, nat>)
    ensures Load(a + b, chains, todo) == Load(a, chains, todo) + Load(b, chains, todo)
  {
    if a == [] {
      assert a + b == b;
    } else {
      assert (a + b)[1..] == a[1..] + b;
      LoadConcat(a[1..], b, chains, todo);
    }
  }

  lemma ChainLoadFrame<O>(chain: seq<O>, todo: map<O, nat>, o: O, w: nat)
    requires o !in chain
    ensures ChainLoad(chain, todo[o := w]) == ChainLoad(chain, todo)
  {
    if chain != [] {
      assert chain[0] != o;
      ChainLoadFrame(chain[1..], todo, o, w);
    }
  }

  lemma LoadFrame<T, O>(ring: seq<T>, c1: map<T, seq<O>>, c2: map<T, seq<O>>, t1: map<O, nat>, t2: map<O, nat>)
    requires forall t :: t in ring ==> t in c1 && t in c2 && ChainLoad(c1[t], t1) == ChainLoad(c2[t], t2)
    ensures Load(ring, c1, t1) == Load(ring, c2, t2)
  {
  }

  // One member split off.
  lemma LoadSplit<T, O>(ring: seq<T>, i: nat, chains: map<T, seq<O>>, todo: map<O, nat>)
    requires i < |ring| && ring[i] in chains
    ensures Load(ring, chains, todo)
      == ChainLoad(chains[ring[i]], todo) + Load(ring[..i] + ring[i + 1..], chains, todo)
  {
    assert ring == ring[..i] + ([ring[i]] + ring[i + 1..]);
    LoadConcat(ring[..i], [ring[i]] + ring[i + 1..], chains, todo);
    LoadConcat([ring[i]], ring[i + 1..], chains, todo);
    LoadConcat(ring[..i], ring[i + 1..], chains, todo);
    assert [ring[i]][1..] == [];
  }

  lemma LoadRotate<T, O>(ring: seq<T>, k: nat, chains: map<T, seq<O>>, todo: map<O, nat>)
    requires 1 <= k <= |ring|
    ensures Load(ring[k..] + ring[..1], chains, todo) == Load(ring[..1] + ring[k..], chains, todo)
  {
    LoadConcat(ring[k..], ring[..1], chains, todo);
    LoadConcat(ring[..1], ring[k..], chains, todo);
  }

  lemma UnlinkLoad<T, O>(q: seq<T>, i: nat, chains: map<T, seq<O>>, todo: map<O, nat>)
    requires NoDup(q) && i < |q| && i == (if |q| == 1 then 0 else 1) && forall t :: t in q ==> t in chains
    ensures Load(if |q| == 1 then [] else q[2..] + q[..1], chains - {q[i]}, todo)
      == Load(q, chains, todo) - ChainLoad(chains[q[i]], todo)
  {
    var others := q[..i] + q[i + 1..];
    LoadSplit(q, i, chains, todo);
    LoadFrame(others, chains, chains - {q[i]}, todo, todo);
    if |q| > 1 {
      LoadRotate(q, 2, chains - {q[i]}, todo);
    } else {
      assert others == [];
    }
  }

  lemma ShiftLoad<T, O>(q: seq<T>, i: nat, chains: map<T, seq<O>>, rest: seq<O>, todo: map<O, nat>)
    requires NoDup(q) && i < |q| && forall t :: t in q ==> t in chains
    ensures Load(q[1..] + q[..1], chains[q[i] := rest], todo)
      == Load(q, chains, todo) - ChainLoad(chains[q[i]], todo) + ChainLoad(rest, todo)
  {
    var c := chains[q[i] := rest];
    LoadSplit(q, i, chains, todo);
    LoadSplit(q, i, c, todo);
    LoadFrame(q[..i] + q[i + 1..], chains, c, todo, todo);
    assert q[..1] + q[1..] == q;
    LoadRotate(q, 1, c, todo);
  }

  // Freeing an operation takes one off the load; moving the cursor takes nothing.
  lemma SpliceLoad<T, O>(s: Exec<T, O>)
    requires Inv(s) && s.phase == Splicing
    ensures TotalLoad(SpliceNext(s)) == TotalLoad(s) - (if Frees(s) then 1 else 0)
  {
    hide Conserved;
    var q, t, i := s.ring, NextTail(s), if |s.ring| == 1 then 0 else 1;
    var chain := s.chains[t];
    assert chain == [chain[0]] + chain[1..];
    if Unlinks(s) {
      assert chain[1..] == [];
      UnlinkLoad(q, i, s.chains, s.todo);
    } else {
      var rest := if Frees(s) then chain[1..] else chain;
      ShiftLoad(q, i, s.chains, rest, s.todo);
      assert s.chains[t := chain] == s.chains;
    }
  }

  // A progress call takes off as many as it uses up.
  lemma ProgressLoad<T, O>(s: Exec<T, O>, left: nat, quiet: bool)
    requires Inv(s) && s.phase == Visiting && s.Left(Current(s)) > 0
    ensures TotalLoad(Progress(s, left, quiet)) == TotalLoad(s) - s.Left(Current(s)) + left
  {
    Separation(s);
    hide Conserved;
    var q, o := s.ring, Current(s);
    var todo := s.todo[o := left];
    var chain := s.chains[q[0]];
    assert chain == [o] + chain[1..] && o in chain;
    ChainLoadFrame(chain[1..], s.todo, o, left);
    forall t | t in q[1..] ensures t in s.chains && ChainLoad(s.chains[t], s.todo) == ChainLoad(s.chains[t], todo) {
      assert t != q[0];
      ChainLoadFrame(s.chains[t], s.todo, o, left);
    }
    LoadFrame(q[1..], s.chains, s.chains, s.todo, todo);
  }

  // ---------------------------------------------------------------- draining

  // The work of the operation op->next points to.
  ghost function NextLeft<T, O>(s: Exec<T, O>): nat
    requires s.ring != [] && s.Chain(NextTail(s)) != []
  {
    s.Left(s.Chain(NextTail(s))[0])
  }

  // A bound on the iterations of the thread's loop still to come. The extra one is for an
  // iteration that visits a finished operation in front of an unfinished one: it calls nothing
  // and frees nothing.
  ghost function Potential<T, O>(s: Exec<T, O>): nat
    requires Inv(s)
  {
    if s.ring == [] || s.phase.Exited? then 0
    else if s.phase == Splicing then 2 * TotalLoad(s) + (if NextLeft(s) > 0 then 1 else 0)
    else 2 * TotalLoad(s) + (if s.Left(Current(s)) == 0 && NextLeft(s) > 0 then 1 else 0)
  }

  // A run without appends in which every call of a callback brings it closer to its end.
  ghost predicate Draining<T, O>(s: Exec<T, O>, ls: seq<Label<T, O>>)
    decreases |ls|
  {
    ls == [] || (Drains(s, ls[0]) && Draining(Next(s, ls[0]), ls[1..]))
  }

  ghost predicate Drains<T, O>(s: Exec<T, O>, l: Label<T, O>) {
    && !l.Append?
    && (l.Visit? && Inv(s) && Enabled(s, l) && s.Left(Current(s)) > 0 ==> l.left < s.Left(Current(s)))
  }

  // The completed iterations of the thread's loop in a run.
  ghost function Iterations<T, O>(ls: seq<Label<T, O>>): nat {
    if ls == [] then 0 else (if ls[0].Splice? then 1 else 0) + Iterations(ls[1..])
  }

  lemma VisitPotential<T, O>(s: Exec<T, O>, left: nat, quiet: bool)
    requires Inv(s) && s.phase == Visiting && Inv(Progress(s, left, quiet))
    requires s.Left(Current(s)) > 0 ==> left < s.Left(Current(s))
    ensures Potential(Progress(s, left, quiet)) <= Potential(s)
  {
    hide Conserved;
    if s.Left(Current(s)) > 0 {
      ProgressLoad(s, left, quiet);
    }
    hide NoDup;
  }

  lemma SplicePotential<T, O>(s: Exec<T, O>)
    requires Inv(s) && s.phase == Splicing && Inv(SpliceNext(s))
    ensures 1 + Potential(SpliceNext(s)) <= Potential(s)
  {
    hide Conserved;
    SpliceLoad(s);
    if !Frees(s) {
      // the cursor moves to the unfinished operation
      var r := SpliceNext(s);
      assert r.ring[0] == NextTail(s);
      assert Current(r) == s.Chain(NextTail(s))[0];
    }
    hide NoDup;
  }

  // The steps that leave the queues alone.
  lemma OtherSteps<T, O>(s: Exec<T, O>, l: Label<T, O>)
    requires Inv(s) && Enabled(s, l) && !l.Append? && !l.Visit? && !l.Splice?
    ensures var r := Next(s, l);
      && r.ring == s.ring && r.chains == s.chains && r.todo == s.todo
      && (r.phase == s.phase || r.phase.Exited? || (r.phase == Fetching && s.phase.Parked?)
          || (r.phase == Visiting && s.phase == Fetching)
              || (r.phase.Parked? && (s.phase == Fetching || s.phase.Parked?)))
  {
    hide Conserved, NoDup, FreshSlab, Shape;
  }

  lemma OtherPotential<T, O>(s: Exec<T, O>, l: Label<T, O>)
    requires Inv(s) && Enabled(s, l) && Inv(Next(s, l)) && !l.Append? && !l.Visit? && !l.Splice?
    ensures Potential(Next(s, l)) <= Potential(s)
  {
    hide Conserved, NoDup, Load, Next, Enabled;
    OtherSteps(s, l);
  }

  lemma StepPotential<T, O>(s: Exec<T, O>, l: Label<T, O>)
    requires Inv(s) && Enabled(s, l) && Drains(s, l)
    ensures Inv(Next(s, l))
    ensures (if l.Splice? then 1 else 0) + Potential(Next(s, l)) <= Potential(s)
  {
    hide Conserved, NoDup, Shape, Potential, FreshSlab;
    NextKeepsInv(s, l);
    match l
    case Visit(left, quiet) => VisitPotential(s, left, quiet);
    case Splice => SplicePotential(s);
    case _ => OtherPotential(s, l);
  }

  lemma {:induction false} DrainSteps<T, O>(s: Exec<T, O>, ls: seq<Label<T, O>>)
    requires Inv(s) && Legal(s, ls) && Draining(s, ls)
    ensures Inv(Run(s, ls))
    ensures Iterations(ls) + Potential(Run(s, ls)) <= Potential(s)
    decreases |ls|
  {
    if ls != [] {
      hide Inv, Next, Drains;
      StepPotential(s, ls[0]);
      DrainSteps(Next(s, ls[0]), ls[1..]);
    }
  }

  lemma LoadPositive<T, O>(s: Exec<T, O>)
    requires Inv(s) && s.ring != []
    ensures TotalLoad(s) > 0
  {
    assert s.ring[0] in s.chains;
  }

  // Without appends the loop makes at most 2 * load + 1 iterations, and one less if the cursor
  // starts at an unfinished operation; a run that makes that many leaves the ring empty.
  lemma DrainBound<T, O>(s: Exec<T, O>, ls: seq<Label<T, O>>)
    requires Inv(s) && Legal(s, ls) && Draining(s, ls)
    ensures Iterations(ls) <= 2 * TotalLoad(s) + 1
    ensures s.phase != Splicing && (s.ring != [] ==> s.Left(Current(s)) > 0) ==> Iterations(ls) <= 2 * TotalLoad(s)
    ensures Iterations(ls) >= Potential(s) ==> Run(s, ls).ring == [] || Run(s, ls).phase.Exited?
  {
    DrainSteps(s, ls);
    hide Conserved, NoDup;
    if Run(s, ls).ring != [] {
      LoadPositive(Run(s, ls));
    }
  }

  // ---------------------------------------------------------------- fairness

  ghost function IndexOf<T>(q: seq<T>, t: T): (i: nat)
    requires t in q
    ensures i < |q| && q[i] == t
  {
    if q[0] == t then 0 else 1 + IndexOf(q[1..], t)
  }

  lemma IndexAt<T>(q: seq<T>, i: nat)
    requires NoDup(q) && i < |q|
    ensures IndexOf(q, q[i]) == i
  {
  }

  // The visits of other operations still to come before the one of ring member t.
  ghost function Distance<T, O>(s: Exec<T, O>, t: T): nat
    requires t in s.ring
  {
    var i := IndexOf(s.ring, t);
    if s.phase != Splicing then i else if i > 0 then i - 1 else |s.ring| - 1
  }

  // The oldest operation of peer t is o, and it is not finished.
  ghost predicate Waits<T, O>(s: Exec<T, O>, t: T, o: O) {
    t in s.ring && t in s.chains && s.chains[t] != [] && s.chains[t][0] == o && s.Left(o) > 0
  }

  ghost predicate Calls<T, O>(s: Exec<T, O>, l: Label<T, O>, o: O) {
    Inv(s) && Enabled(s, l) && l.Visit? && Current(s) == o
  }

  ghost predicate NeverCalls<T, O>(s: Exec<T, O>, ls: seq<Label<T, O>>, o: O)
    decreases |ls|
  {
    ls == [] || (!Calls(s, ls[0], o) && NeverCalls(Next(s, ls[0]), ls[1..], o))
  }

  ghost function Visits<T, O>(ls: seq<Label<T, O>>): nat {
    if ls == [] then 0 else (if ls[0].Visit? then 1 else 0) + Visits(ls[1..])
  }

  ghost predicate Inserts<T, O>(s: Exec<T, O>, l: Label<T, O>) {
    l.Append? && l.tail !in s.chains
  }

  // The new ring members of a run.
  ghost function Insertions<T, O>(s: Exec<T, O>, ls: seq<Label<T, O>>): nat
    decreases |ls|
  {
    if ls == [] then 0 else (if Inserts(s, ls[0]) then 1 else 0) + Insertions(Next(s, ls[0]), ls[1..])
  }

  lemma WaiterQueued<T, O>(s: Exec<T, O>, t: T, o: O)
    requires Inv(s) && Waits(s, t, o)
    ensures o !in s.held
  {
    Separation(s);
    assert o in s.chains[t];
  }

  lemma InsertedAt<T>(q: seq<T>, anchor: nat, added: T, i: nat)
    requires anchor < |q| && i < |q|
    ensures var j := if i <= anchor then i else i + 1;
      j < |InsertAfter(q, anchor, added)| && InsertAfter(q, anchor, added)[j] == q[i]
  {
  }

  lemma InsertIndex<T>(q: seq<T>, anchor: nat, added: T, t: T)
    requires NoDup(InsertAfter(q, anchor, added)) && t in q && anchor < |q|
    ensures t in InsertAfter(q, anchor, added)
    ensures IndexOf(InsertAfter(q, anchor, added), t) == if IndexOf(q, t) <= anchor then IndexOf(q, t)
      else IndexOf(q, t) + 1
  {
    hide IndexOf, InsertAfter, NoDup;
    var i := IndexOf(q, t);
    InsertedAt(q, anchor, added, i);
    IndexAt(InsertAfter(q, anchor, added), if i <= anchor then i else i + 1);
  }

  lemma StaysInRing<T, O>(s: Exec<T, O>, u: T, p: O, work: nat, t: T, o: O)
    requires Shape(s) && Waits(s, t, o) && o != p && Shape(Enqueue(s, u, p, work))
    ensures var r := Enqueue(s, u, p, work);
      && Waits(r, t, o) && r.phase == s.phase && s.ring != [] && s.anchor < |s.ring|
      && r.ring == (if u in s.chains then s.ring else InsertAfter(s.ring, s.anchor, u))
  {
    hide NoDup, InsertAfter;
  }

  lemma InsertDistance<T, O>(s: Exec<T, O>, l: Label<T, O>, t: T, o: O)
    requires Inv(s) && Enabled(s, l) && l.Append? && Waits(s, t, o) && Inv(Next(s, l))
    ensures Waits(Next(s, l), t, o)
    ensures Distance(Next(s, l), t) <= Distance(s, t) + (if Inserts(s, l) then 1 else 0)
  {
    AppendIs(s, l, t, o);
    hide Conserved, NoDup, IndexOf, InsertAfter, Enqueue, Next, Enabled;
    StaysInRing(s, l.tail, l.op, l.work, t, o);
    if Inserts(s, l) {
      InsertIndex(s.ring, s.anchor, l.tail, t);
      InsertedAt(s.ring, s.anchor, l.tail, 0);
      InsertedSize(s.ring, s.anchor, l.tail);
    }
    hide Shape, Waits;
  }

  lemma AppendIs<T, O>(s: Exec<T, O>, l: Label<T, O>, t: T, o: O)
    requires Inv(s) && Enabled(s, l) && l.Append? && Waits(s, t, o)
    ensures Next(s, l) == Enqueue(s, l.tail, l.op, l.work) && o != l.op
  {
    WaiterQueued(s, t, o);
    hide Inv, Enqueue;
  }

  lemma InsertedSize<T>(q: seq<T>, anchor: nat, added: T)
    ensures |InsertAfter(q, anchor, added)| == |q| + 1
  {
  }

  // Where a member that stays is after the splice.
  lemma SpliceIndex<T, O>(s: Exec<T, O>, i: nat)
    requires Shape(s) && s.phase == Splicing && i < |s.ring| && !(Unlinks(s) && s.ring[i] == NextTail(s))
    ensures var q := SpliceRing(s).0;
      var j := if !Unlinks(s) then (if i > 0 then i - 1 else |s.ring| - 1) else if i > 1 then i - 2 else |s.ring| - 2;
      j < |q| && q[j] == s.ring[i]
  {
    hide NoDup;
  }

  lemma SpliceDistance<T, O>(s: Exec<T, O>, t: T, o: O)
    requires Inv(s) && s.phase == Splicing && Waits(s, t, o) && Inv(SpliceNext(s))
    ensures Waits(SpliceNext(s), t, o) && Distance(SpliceNext(s), t) <= Distance(s, t)
  {
    hide Conserved, NoDup, SpliceRing;
    var i, n := IndexOf(s.ring, t), |s.ring|;
    var r := SpliceNext(s);
    assert t == NextTail(s) ==> !Frees(s);
    SpliceIndex(s, i);
    var j := if !Unlinks(s) then (if i > 0 then i - 1 else n - 1) else if i > 1 then i - 2 else n - 2;
    assert r.ring[j] == t;
    IndexAt(r.ring, j);
    hide IndexOf;
  }

  lemma VisitDistance<T, O>(s: Exec<T, O>, left: nat, quiet: bool, t: T, o: O)
    requires Inv(s) && s.phase == Visiting && Waits(s, t, o) && Current(s) != o
    ensures var r := Progress(s, left, quiet);
      Waits(r, t, o) && 1 + Distance(r, t) <= Distance(s, t)
  {
  }

  lemma StepDistance<T, O>(s: Exec<T, O>, l: Label<T, O>, t: T, o: O)
    requires Inv(s) && Enabled(s, l) && Waits(s, t, o) && !Calls(s, l, o)
    ensures Inv(Next(s, l)) && Waits(Next(s, l), t, o)
    ensures (if l.Visit? then 1 else 0) + Distance(Next(s, l), t) <= Distance(s, t) + (if Inserts(s, l) then 1 else 0)
  {
    hide Conserved, NoDup, FreshSlab, Shape;
    NextKeepsInv(s, l);
    match l
    case Append(_, _, _) => InsertDistance(s, l, t, o);
    case Visit(left, quiet) => VisitDistance(s, left, quiet, t, o);
    case Splice => SpliceDistance(s, t, o);
    case _ =>
  }

  // Round robin: while an unfinished operation waits at the head of its peer and is not called,
  // the thread makes at most as many visits as there were ring members in front of it, plus one
  // for each ring member inserted meanwhile. So it is called within distance + insertions + 1 visits.
  lemma {:induction false} RoundRobin<T, O>(s: Exec<T, O>, ls: seq<Label<T, O>>, t: T, o: O)
    requires Inv(s) && Legal(s, ls) && Waits(s, t, o) && NeverCalls(s, ls, o)
    ensures Waits(Run(s, ls), t, o)
    ensures Visits(ls) + Distance(Run(s, ls), t) <= Distance(s, t) + Insertions(s, ls)
    decreases |ls|
  {
    if ls != [] {
      hide Inv, Next, Calls, Inserts, Waits, Distance;
      StepDistance(s, ls[0], t, o);
      RoundRobin(Next(s, ls[0]), ls[1..], t, o);
    }
  }
}
