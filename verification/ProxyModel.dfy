// The proxy executor of csrc/proxy.cc as a state machine over values.
//
// A state holds what the mutex protects (the ring of peer queues, the free list, `stop`) and
// the locals of the persistent thread. ProxyHeap proves that the pointer code performs exactly
// the steps defined here.

module ProxyModel {
  import opened Wrappers

  const SLAB_SIZE := 32
  const SPIN_LIMIT := 10

  // Where the persistent thread is between two atomic steps.
  datatype Phase =
    | Fetching                    // op == NULL, about to take the lock
    | Parked(signalled: bool)     // inside pthread_cond_wait
    | Visiting                    // op != NULL, about to call progress without the lock
    | Splicing                    // progress has returned, about to take the lock
    | Exited(byStop: bool)        // returned: through `stop`, or through the abort flag

  datatype Exec<T(==), O(==)> = Exec(
    ring: seq<T>,                 // the tail cells of the ring members, from the cursor (without one: from ops) on
    chains: map<T, seq<O>>,       // for each ring member its operations through nextPeer, oldest first
    anchor: nat,                  // the index in `ring` of the member that handler->ops points to
    todo: map<O, nat>,            // an upper bound on the progress calls still needed; 0 (or absent) is ProxyOpNone
    free: seq<O>,                 // handler->pool through next
    held: set<O>,                 // handed out by allocateArgs and not appended yet
    cells: set<O>,                // every cell of every slab
    slabs: nat,                   // the length of handler->pools
    phase: Phase,
    stop: bool,
    idle: bool,
    idleSpin: nat)
  {
    function Chain(t: T): seq<O> { if t in chains then chains[t] else [] }
    function Left(o: O): nat { if o in todo then todo[o] else 0 }
    predicate Active() { phase == Visiting || phase == Splicing }
  }

  // The steps. A label carries the choices of the clients, of the callback and of the allocator.
  datatype Label<T, O> =
    | Alloc(slab: seq<O>)               // allocateArgs; slab is what calloc returned, if it was called
    | Append(tail: T, op: O, work: nat) // ProxyArgsAppend, with the state the client stored before it
    | Start                             // ProxyStart
    | Destroy                           // ProxyDestroy up to the join
    | Wake                              // pthread_cond_wait returns, after a signal or spuriously
    | Abort                             // the thread sees the abort flag
    | Fetch                             // the lock section that reads ops
    | Visit(left: nat, quiet: bool)     // op->idle = 0 and the callback; it leaves `left` work and op->idle == quiet
    | Splice                            // the lock section that unlinks, recycles and advances

  // ---------------------------------------------------------------- the steps

  function Init<T, O>(): Exec<T, O> {
    Exec([], map[], 0, map[], [], {}, {}, 0, Fetching, false, true, 0)  // a zeroed handler after ProxyCreate
  }

  function Elems<A(==)>(q: seq<A>): set<A> {
    set x | x in q
  }

  // The free list allocateArgs draws from: a new slab when the pool is empty.
  function Stock<T, O>(s: Exec<T, O>, slab: seq<O>): seq<O> {
    if s.free == [] then slab else s.free
  }

  function Refill<T, O>(s: Exec<T, O>, slab: seq<O>): Exec<T, O> {
    if s.free == [] then s.(free := slab, cells := s.cells + Elems(slab), slabs := s.slabs + 1) else s
  }

  function Allocate<T, O>(s: Exec<T, O>, slab: seq<O>): Exec<T, O>
    requires Stock(s, slab) != []
  {
    var s1 := Refill(s, slab);
    s1.(free := s1.free[1..], held := s1.held + {s1.free[0]})
  }

  // A new ring member goes right after the one handler->ops points to.
  function InsertAfter<T>(ring: seq<T>, anchor: nat, t: T): seq<T> {
    if anchor < |ring| then ring[..anchor + 1] + [t] + ring[anchor + 1..] else ring + [t]
  }

  function Enqueue<T, O>(s: Exec<T, O>, t: T, o: O, work: nat): Exec<T, O> {
    var s1 := s.(held := s.held - {o}, todo := s.todo[o := work], chains := s.chains[t := s.Chain(t) + [o]]);
    if t in s.chains then s1
    else s1.(ring := InsertAfter(s.ring, s.anchor, t), anchor := if s.ring == [] then 0 else s.anchor)
  }

  function Signal(p: Phase): Phase {
    if p.Parked? then Parked(true) else p
  }

  function FetchOps<T, O>(s: Exec<T, O>): Exec<T, O> {
    s.(phase := if s.ring != [] then Visiting else if s.stop then Exited(true) else Parked(false))
  }

  // The operation the cursor stands on.
  function Current<T, O>(s: Exec<T, O>): O
    requires s.ring != [] && s.Chain(s.ring[0]) != []
  {
    s.Chain(s.ring[0])[0]
  }

  function Progress<T, O>(s: Exec<T, O>, left: nat, quiet: bool): Exec<T, O>
    requires s.ring != [] && s.Chain(s.ring[0]) != []
  {
    var o := Current(s);
    if s.Left(o) == 0 then s.(idle := false, phase := Splicing)
    else s.(todo := s.todo[o := left], idle := s.idle && quiet, phase := Splicing)
  }

  // The ring member op->next heads.
  function NextTail<T, O>(s: Exec<T, O>): T
    requires s.ring != []
  {
    if |s.ring| == 1 then s.ring[0] else s.ring[1]
  }

  predicate Frees<T, O>(s: Exec<T, O>)
    requires s.ring != [] && s.Chain(NextTail(s)) != []
  {
    s.Left(s.Chain(NextTail(s))[0]) == 0
  }

  // Whether the freed operation was the last of its queue.
  predicate Unlinks<T, O>(s: Exec<T, O>)
    requires s.ring != [] && s.Chain(NextTail(s)) != []
  {
    Frees(s) && |s.Chain(NextTail(s))| == 1
  }

  function SpliceRing<T, O>(s: Exec<T, O>): (r: (seq<T>, nat))
    requires s.ring != [] && s.Chain(NextTail(s)) != []
    requires s.anchor < |s.ring|
  {
    var n := |s.ring|;
    if !Unlinks(s) then (s.ring[1..] + s.ring[..1], if s.anchor == 0 then n - 1 else s.anchor - 1)
    else if n == 1 then ([], 0)
    else (s.ring[2..] + s.ring[..1], if s.anchor == 0 then n - 2 else if s.anchor == 1 then 0 else s.anchor - 2)
  }

  function SpliceQueues<T, O>(s: Exec<T, O>): Exec<T, O>
    requires s.ring != [] && s.Chain(NextTail(s)) != []
    requires s.anchor < |s.ring|
  {
    var (ring, anchor) := SpliceRing(s);
    var t := NextTail(s);
    var chain := s.Chain(t);
    var s1 := s.(ring := ring, anchor := anchor);
    if !Frees(s) then s1
    else s1.(chains := if |chain| == 1 then s.chains - {t} else s.chains[t := chain[1..]],
             free := [chain[0]] + s.free)
  }

  // The cursor has come back to handler->ops (both are NULL when the ring ran empty).
  predicate Arrives<T, O>(s: Exec<T, O>)
    requires s.ring != [] && s.Chain(NextTail(s)) != []
    requires s.anchor < |s.ring|
  {
    SpliceRing(s).1 == 0
  }

  function Spin(idle: bool, idleSpin: nat): nat { if idle then idleSpin else 0 }

  predicate Yields<T, O>(s: Exec<T, O>)
    requires s.ring != [] && s.Chain(NextTail(s)) != []
    requires s.anchor < |s.ring|
  {
    Arrives(s) && s.idle && s.idleSpin + 1 == SPIN_LIMIT
  }

  ghost predicate AboutToYield<T, O>(s: Exec<T, O>) {
    Inv(s) && s.phase == Splicing && Yields(s)
  }

  function SpliceNext<T, O>(s: Exec<T, O>): Exec<T, O>
    requires s.ring != [] && s.Chain(NextTail(s)) != []
    requires s.anchor < |s.ring|
  {
    var spin := Spin(s.idle, s.idleSpin);
    SpliceQueues(s).(
      idleSpin := if Yields(s) then 0 else if Arrives(s) && s.idle then spin + 1 else spin,
      idle := s.idle || Arrives(s),
      phase := if SpliceRing(s).0 == [] then Fetching else Visiting)
  }

  // ---------------------------------------------------------------- the invariant

  // The operations queued at the given ring members, with multiplicity.
  ghost function Queued<T, O>(ring: seq<T>, chains: map<T, seq<O>>): multiset<O> {
    if ring == [] then multiset{}
    else Queued(ring[1..], chains) + (if ring[0] in chains then multiset(chains[ring[0]]) else multiset{})
  }

  predicate NoDup<A(==)>(q: seq<A>) {
    forall i, j :: 0 <= i < j < |q| ==> q[i] != q[j]
  }

  // The ring has one member per tail cell, every member heads a queue that is not empty,
  // and the cursor and ops are members.
  ghost predicate Shape<T, O>(s: Exec<T, O>) {
    && NoDup(s.ring)
    && (forall t :: t in s.ring ==> t in s.chains)
    && (forall t :: t in s.chains ==> t in s.ring)
    && (forall t :: t in s.chains ==> s.chains[t] != [])
    && (if s.ring == [] then s.anchor == 0 else s.anchor < |s.ring|)
    && (s.phase.Fetching? || s.phase.Parked? ==> s.anchor == 0)
    && (s.Active() ==> s.ring != [])
    && s.idleSpin < SPIN_LIMIT
  }

  // Every slab cell is in exactly one of: the free list, client hands, one peer queue.
  ghost predicate Conserved<T, O>(s: Exec<T, O>) {
    && multiset(s.free) + multiset(s.held) + Queued(s.ring, s.chains) == multiset(s.cells)
    && |s.cells| == SLAB_SIZE * s.slabs
  }

  ghost predicate Inv<T, O>(s: Exec<T, O>) {
    Shape(s) && Conserved(s)
  }

  ghost predicate FreshSlab<T, O>(s: Exec<T, O>, slab: seq<O>) {
    |slab| == SLAB_SIZE && NoDup(slab) && forall o :: o in slab ==> o !in s.cells
  }

  ghost predicate Enabled<T, O>(s: Exec<T, O>, l: Label<T, O>) {
    match l
    case Alloc(slab) => s.free == [] ==> FreshSlab(s, slab)
    case Append(_, o, _) => o in s.held
    case Start => true
    case Destroy => true
    case Wake => s.phase.Parked?
    case Abort => s.phase == Fetching || s.phase == Visiting
    case Fetch => s.phase == Fetching
    case Visit(_, _) => s.phase == Visiting
    case Splice => s.phase == Splicing
  }

  ghost function Step<T, O>(s: Exec<T, O>, l: Label<T, O>): Exec<T, O>
    requires Inv(s) && Enabled(s, l)
  {
    match l
    case Alloc(slab) => Allocate(s, slab)
    case Append(t, o, work) => Enqueue(s, t, o, work)
    case Start => if s.ring != [] then s.(stop := false, phase := Signal(s.phase)) else s
    case Destroy => s.(stop := true, phase := Signal(s.phase))
    case Wake => s.(phase := Fetching)
    case Abort => s.(phase := Exited(false))
    case Fetch => FetchOps(s)
    case Visit(left, quiet) => Progress(s, left, quiet)
    case Splice => SpliceNext(s)
  }

  ghost predicate Took<T, O>(s: Exec<T, O>, l: Label<T, O>, s': Exec<T, O>) {
    Inv(s) && Enabled(s, l) && s' == Step(s, l)
  }

  // ---------------------------------------------------------------- lemmas about Queued

  lemma QueuedConcat<T, O>(a: seq<T>, b: seq<T>, chains: map<T, seq<O>>)
    ensures Queued(a + b, chains) == Queued(a, chains) + Queued(b, chains)
  {
    if a == [] {
      assert a + b == b;
    } else {
      assert (a + b)[1..] == a[1..] + b;
      QueuedConcat(a[1..], b, chains);
    }
  }

  lemma QueuedFrame<T, O>(ring: seq<T>, c1: map<T, seq<O>>, c2: map<T, seq<O>>)
    requires forall t :: t in ring ==> (t in c1 <==> t in c2) && (t in c1 ==> c1[t] == c2[t])
    ensures Queued(ring, c1) == Queued(ring, c2)
  {
    if ring != [] {
      QueuedFrame(ring[1..], c1, c2);
    }
  }

  lemma QueuedSingle<T, O>(t: T, chains: map<T, seq<O>>)
    requires t in chains
    ensures Queued([t], chains) == multiset(chains[t])
  {
    assert [t][1..] == [];
    assert Queued([t][1..], chains) == multiset{};
  }

  // Changing one chain changes the queued operations by that chain alone.
  lemma QueuedReplace<T, O>(ring: seq<T>, i: nat, c1: map<T, seq<O>>, c2: map<T, seq<O>>) returns (rest: multiset<O>)
    requires i < |ring| && NoDup(ring)
    requires ring[i] in c1 && ring[i] in c2
    requires forall t :: t in ring && t != ring[i] ==> (t in c1 <==> t in c2) && (t in c1 ==> c1[t] == c2[t])
    ensures Queued(ring, c1) == rest + multiset(c1[ring[i]])
    ensures Queued(ring, c2) == rest + multiset(c2[ring[i]])
  {
    var a, b := ring[..i], ring[i + 1..];
    assert ring == a + ([ring[i]] + b);
    QueuedConcat(a, [ring[i]] + b, c1);
    QueuedConcat(a, [ring[i]] + b, c2);
    QueuedConcat([ring[i]], b, c1);
    QueuedConcat([ring[i]], b, c2);
    QueuedSingle(ring[i], c1);
    QueuedSingle(ring[i], c2);
    QueuedFrame(a, c1, c2);
    QueuedFrame(b, c1, c2);
    rest := Queued(a, c1) + Queued(b, c1);
  }

  // The place of a cell in some queue, from its being queued.
  lemma QueuedMember<T, O>(ring: seq<T>, chains: map<T, seq<O>>, o: O)
    ensures o in Queued(ring, chains) <==> exists t :: t in ring && t in chains && o in chains[t]
  {
    if ring != [] {
      QueuedMember(ring[1..], chains, o);
      if o in Queued(ring, chains) {
        if ring[0] in chains && o in chains[ring[0]] {
        } else {
          var t :| t in ring[1..] && t in chains && o in chains[t];
          assert t in ring;
        }
      }
      if t :| t in ring && t in chains && o in chains[t] {
        assert ring == [ring[0]] + ring[1..];
        assert t == ring[0] || t in ring[1..];
      }
    }
  }

  lemma QueuedContains<T, O>(ring: seq<T>, chains: map<T, seq<O>>, t: T)
    requires t in ring && t in chains
    ensures multiset(chains[t]) <= Queued(ring, chains)
  {
    if ring[0] != t {
      QueuedContains(ring[1..], chains, t);
    }
  }

  lemma QueuedTwo<T, O>(ring: seq<T>, chains: map<T, seq<O>>, t: T, u: T)
    requires t in ring && t in chains && u in ring && u in chains && t != u
    ensures multiset(chains[t]) + multiset(chains[u]) <= Queued(ring, chains)
  {
    if ring[0] == t {
      assert u in ring[1..];
      QueuedContains(ring[1..], chains, u);
    } else if ring[0] == u {
      assert t in ring[1..];
      QueuedContains(ring[1..], chains, t);
    } else {
      QueuedTwo(ring[1..], chains, t, u);
    }
  }

  // A sequence whose elements are counted at most once has no duplicates.
  lemma AtMostOnce<A>(q: seq<A>, all: multiset<A>, i: nat, j: nat)
    requires i < j < |q|
    requires multiset(q) <= all && all[q[i]] <= 1
    ensures q[i] != q[j]
  {
    var a, b := q[..j], q[j..];
    assert q == a + b;
    assert a[i] in multiset(a) && b[0] in multiset(b);
    assert multiset(q) == multiset(a) + multiset(b);
  }

  lemma NotTwice<A>(a: multiset<A>, b: multiset<A>, all: multiset<A>, x: A)
    requires a + b <= all && all[x] <= 1
    ensures !(x in a && x in b)
  {
    assert (a + b)[x] <= all[x];
  }

  lemma Exchange<A>(a: multiset<A>, b: multiset<A>, c: multiset<A>, a': multiset<A>, c': multiset<A>)
    requires c' + a' == c + a
    ensures a' + b + c' == a + b + c
  {
    assert a' + b + c' == c' + a' + b;
    assert a + b + c == c + a + b;
  }

  lemma NoDupMultiset<A>(q: seq<A>)
    requires NoDup(q)
    ensures multiset(q) == multiset(Elems(q))
    ensures |Elems(q)| == |q|
  {
    if q == [] {
      assert Elems(q) == {};
    } else {
      var k := |q| - 1;
      assert q == q[..k] + [q[k]];
      NoDupMultiset(q[..k]);
      assert Elems(q) == Elems(q[..k]) + {q[k]};
      assert q[k] !in Elems(q[..k]);
    }
  }

  // What "exactly one" means for two places at a time.
  ghost predicate Apart<T, O>(s: Exec<T, O>) {
    && NoDup(s.free)
    && (forall o :: o in s.free ==> o !in s.held && o in s.cells)
    && s.held <= s.cells
    && (forall t, o {:trigger o in s.chains[t]} :: t in s.chains && o in s.chains[t] ==>
        o !in s.free && o !in s.held && o in s.cells)
    && (forall t :: t in s.chains ==> NoDup(s.chains[t]))
    && (forall t, u, o {:trigger o in s.chains[t], o in s.chains[u]} ::
          t in s.chains && u in s.chains && o in s.chains[t] && o in s.chains[u] ==> t == u)
  }

  ghost function Everything<T, O>(s: Exec<T, O>): multiset<O> {
    multiset(s.free) + multiset(s.held) + Queued(s.ring, s.chains)
  }

  lemma OnlyOnce<T, O>(s: Exec<T, O>, o: O)
    requires Conserved(s)
    ensures Everything(s)[o] <= 1
    ensures o in Everything(s) <==> o in s.cells
  {
    assert Everything(s) == multiset(s.cells);
  }

  lemma FreeApart<T, O>(s: Exec<T, O>)
    requires Conserved(s)
    ensures NoDup(s.free) && s.held <= s.cells
    ensures forall o :: o in s.free ==> o !in s.held && o in s.cells
  {
    forall i, j | 0 <= i < j < |s.free| ensures s.free[i] != s.free[j] {
      OnlyOnce(s, s.free[i]);
      AtMostOnce(s.free, Everything(s), i, j);
    }
    forall o | o in s.free ensures o !in s.held && o in s.cells {
      OnlyOnce(s, o);
      assert multiset(s.free)[o] >= 1;
    }
    forall o | o in s.held ensures o in s.cells {
      OnlyOnce(s, o);
    }
  }

  lemma ChainApart<T, O>(s: Exec<T, O>, t: T)
    requires Shape(s) && Conserved(s) && t in s.chains
    ensures NoDup(s.chains[t])
    ensures forall o :: o in s.chains[t] ==> o !in s.free && o !in s.held && o in s.cells
  {
    QueuedContains(s.ring, s.chains, t);
    var q := s.chains[t];
    forall i, j | 0 <= i < j < |q| ensures q[i] != q[j] {
      OnlyOnce(s, q[i]);
      AtMostOnce(q, Everything(s), i, j);
    }
    forall o | o in q ensures o !in s.free && o !in s.held && o in s.cells {
      OnlyOnce(s, o);
      assert multiset(q)[o] >= 1;
    }
  }

  lemma TwoChainsApart<T, O>(s: Exec<T, O>, t: T, u: T, o: O)
    requires Shape(s) && Conserved(s) && t in s.chains && u in s.chains && t != u
    ensures !(o in s.chains[t] && o in s.chains[u])
  {
    OnlyOnce(s, o);
    QueuedTwo(s.ring, s.chains, t, u);
    NotTwice(multiset(s.chains[t]), multiset(s.chains[u]), Everything(s), o);
  }

  lemma Separation<T, O>(s: Exec<T, O>)
    requires Inv(s)
    ensures Apart(s)
    ensures forall o :: o in s.cells ==> o in s.free || o in s.held || exists t :: t in s.chains && o in s.chains[t]
  {
    hide NoDup;
    FreeApart(s);
    forall t | t in s.chains
      ensures NoDup(s.chains[t])
      ensures forall o :: o in s.chains[t] ==> o !in s.free && o !in s.held && o in s.cells
    {
      ChainApart(s, t);
    }
    forall t, u, o | t in s.chains && u in s.chains && o in s.chains[t] && o in s.chains[u] ensures t == u {
      if t != u {
        TwoChainsApart(s, t, u, o);
      }
    }
    forall o | o in s.cells ensures o in s.free || o in s.held || exists t :: t in s.chains && o in s.chains[t] {
      OnlyOnce(s, o);
      QueuedMember(s.ring, s.chains, o);
    }
  }

  // ---------------------------------------------------------------- every step keeps the invariant

  lemma TakeOne<A>(free: seq<A>, held: set<A>, c: multiset<A>)
    requires free != [] && free[0] !in held
    ensures multiset(free[1..]) + multiset(held + {free[0]}) + c == multiset(free) + multiset(held) + c
  {
    assert free == [free[0]] + free[1..];
    assert multiset(held + {free[0]}) == multiset(held) + multiset{free[0]};
  }

  lemma AddSlab<A>(slab: seq<A>, cells: set<A>, held: multiset<A>, c: multiset<A>)
    requires NoDup(slab) && forall o :: o in slab ==> o !in cells
    requires held + c == multiset(cells)
    ensures var all := cells + Elems(slab);
      multiset(slab) + held + c == multiset(all) && |all| == |cells| + |slab|
  {
    NoDupMultiset(slab);
    var more := Elems(slab);
    assert more !! cells;
    assert multiset(cells + more) == multiset(cells) + multiset(more);
  }

  lemma RefillKeeps<T, O>(s: Exec<T, O>, slab: seq<O>)
    requires Inv(s) && (s.free == [] ==> FreshSlab(s, slab))
    ensures Inv(Refill(s, slab)) && Refill(s, slab).free != []
  {
    var c := Queued(s.ring, s.chains);
    if s.free == [] {
      assert multiset(s.free) + multiset(s.held) + c == multiset(s.held) + c;
      AddSlab(slab, s.cells, multiset(s.held), c);
    }
  }

  lemma AllocateKeeps<T, O>(s: Exec<T, O>, slab: seq<O>)
    requires Inv(s) && (s.free == [] ==> FreshSlab(s, slab))
    ensures Inv(Allocate(s, slab))
  {
    RefillKeeps(s, slab);
    var s1 := Refill(s, slab);
    Separation(s1);
    TakeOne(s1.free, s1.held, Queued(s1.ring, s1.chains));
  }

  lemma NoDupInsert<A>(q: seq<A>, k: nat, x: A)
    requires NoDup(q) && k <= |q| && x !in q
    ensures NoDup(q[..k] + [x] + q[k..])
  {
    var r := q[..k] + [x] + q[k..];
    forall i, j | 0 <= i < j < |r| ensures r[i] != r[j] {
      assert r[i] == if i < k then q[i] else if i == k then x else q[i - 1];
      assert r[j] == if j < k then q[j] else if j == k then x else q[j - 1];
    }
  }

  lemma QueuedInsert<T, O>(ring: seq<T>, k: nat, t: T, c1: map<T, seq<O>>, c2: map<T, seq<O>>)
    requires k <= |ring| && t !in ring && t in c2
    requires forall u :: u in ring ==> u in c1 && u in c2 && c1[u] == c2[u]
    ensures Queued(ring[..k] + [t] + ring[k..], c2) == Queued(ring, c1) + multiset(c2[t])
  {
    var a, b := ring[..k], ring[k..];
    assert ring == a + b;
    QueuedConcat(a, b, c1);
    QueuedConcat(a + [t], b, c2);
    QueuedConcat(a, [t], c2);
    QueuedSingle(t, c2);
    QueuedFrame(a, c1, c2);
    QueuedFrame(b, c1, c2);
  }

  lemma QueuedPush<T, O>(ring: seq<T>, i: nat, chains: map<T, seq<O>>, o: O)
    requires NoDup(ring) && i < |ring| && ring[i] in chains
    ensures Queued(ring, chains[ring[i] := chains[ring[i]] + [o]]) == Queued(ring, chains) + multiset{o}
  {
    var chain := chains[ring[i]];
    assert multiset(chain + [o]) == multiset(chain) + multiset{o};
    var rest := QueuedReplace(ring, i, chains, chains[ring[i] := chain + [o]]);
    assert rest + (multiset(chain) + multiset{o}) == rest + multiset(chain) + multiset{o};
  }

  lemma QueuedNew<T, O>(ring: seq<T>, anchor: nat, t: T, chains: map<T, seq<O>>, o: O)
    requires ring != [] ==> anchor < |ring|
    requires t !in ring && t !in chains && forall u :: u in ring ==> u in chains
    ensures Queued(InsertAfter(ring, anchor, t), chains[t := [] + [o]]) == Queued(ring, chains) + multiset{o}
  {
    var k := if ring == [] then 0 else anchor + 1;
    assert [] + [o] == [o];
    QueuedInsert(ring, k, t, chains, chains[t := [] + [o]]);
    assert InsertAfter(ring, anchor, t) == ring[..k] + [t] + ring[k..];
  }

  lemma EnqueueQueues<T, O>(s: Exec<T, O>, t: T, o: O, work: nat)
    requires Shape(s)
    ensures var r := Enqueue(s, t, o, work); Queued(r.ring, r.chains) == Queued(s.ring, s.chains) + multiset{o}
  {
    if t in s.chains {
      var i :| 0 <= i < |s.ring| && s.ring[i] == t;
      QueuedPush(s.ring, i, s.chains, o);
    } else {
      QueuedNew(s.ring, s.anchor, t, s.chains, o);
    }
  }

  lemma EnqueueShape<T, O>(s: Exec<T, O>, t: T, o: O, work: nat)
    requires Shape(s)
    ensures Shape(Enqueue(s, t, o, work))
  {
    if t !in s.chains && s.ring != [] {
      NoDupInsert(s.ring, s.anchor + 1, t);
    }
  }

  lemma EnqueueConserves<T, O>(s: Exec<T, O>, t: T, o: O, work: nat)
    requires Inv(s) && o in s.held
    ensures Conserved(Enqueue(s, t, o, work))
  {
    EnqueueQueues(s, t, o, work);
    var r := Enqueue(s, t, o, work);
    HandOver(multiset(s.free), s.held, Queued(s.ring, s.chains), o);
  }

  lemma HandOver<A>(a: multiset<A>, held: set<A>, c: multiset<A>, o: A)
    requires o in held
    ensures a + multiset(held - {o}) + (c + multiset{o}) == a + multiset(held) + c
  {
    assert multiset(held) == multiset(held - {o}) + multiset{o};
  }

  lemma EnqueueKeeps<T, O>(s: Exec<T, O>, t: T, o: O, work: nat)
    requires Inv(s) && o in s.held
    ensures Inv(Enqueue(s, t, o, work))
  {
    EnqueueShape(s, t, o, work);
    EnqueueConserves(s, t, o, work);
  }

  lemma NoDupRotate<A>(q: seq<A>, k: nat)
    requires NoDup(q) && 1 <= k <= |q|
    ensures NoDup(q[k..] + q[..1])
  {
    var r := q[k..] + q[..1];
    forall i, j | 0 <= i < j < |r| ensures r[i] != r[j] {
      assert r[i] == q[i + k];
      assert r[j] == if j < |q| - k then q[j + k] else q[0];
    }
  }

  lemma RotateMembers<A>(q: seq<A>, k: nat, x: A)
    requires NoDup(q) && (k == 1 || k == 2) && k <= |q|
    ensures x in q[k..] + q[..1] <==> x in q && (k == 2 ==> x != q[1])
  {
    var r := q[k..] + q[..1];
    if x in r {
      var i :| 0 <= i < |r| && r[i] == x;
      assert r[i] == if i < |q| - k then q[i + k] else q[0];
    }
    if i :| 0 <= i < |q| && q[i] == x && (k == 2 ==> x != q[1]) {
      assert x == if i >= k then r[i - k] else r[|q| - k];
    }
  }

  lemma QueuedRotate<T, O>(q: seq<T>, chains: map<T, seq<O>>)
    requires q != []
    ensures Queued(q[1..] + q[..1], chains) == Queued(q, chains)
  {
    assert q == q[..1] + q[1..];
    QueuedConcat(q[..1], q[1..], chains);
    QueuedConcat(q[1..], q[..1], chains);
  }

  lemma QueuedUnlink<T, O>(q: seq<T>, chains: map<T, seq<O>>)
    requires NoDup(q) && |q| >= 2 && q[1] in chains
    ensures Queued(q[2..] + q[..1], chains - {q[1]}) + multiset(chains[q[1]]) == Queued(q, chains)
  {
    var c2 := chains - {q[1]};
    assert q == q[..1] + ([q[1]] + q[2..]);
    QueuedConcat(q[..1], [q[1]] + q[2..], chains);
    QueuedConcat([q[1]], q[2..], chains);
    QueuedSingle(q[1], chains);
    QueuedConcat(q[2..], q[..1], c2);
    QueuedFrame(q[..1], chains, c2);
    QueuedFrame(q[2..], chains, c2);
  }

  // Recycling the head of one chain, in place or with its queue.
  lemma QueuedShift<T, O>(q: seq<T>, i: nat, chains: map<T, seq<O>>)
    requires NoDup(q) && i < |q| && q[i] in chains && chains[q[i]] != []
    ensures var chain := chains[q[i]];
      Queued(q, chains[q[i] := chain[1..]]) + multiset{chain[0]} == Queued(q, chains)
  {
    var chain := chains[q[i]];
    assert chain == [chain[0]] + chain[1..];
    assert multiset(chain) == multiset(chain[1..]) + multiset{chain[0]};
    var rest := QueuedReplace(q, i, chains, chains[q[i] := chain[1..]]);
    assert rest + (multiset(chain[1..]) + multiset{chain[0]}) == rest + multiset(chain[1..]) + multiset{chain[0]};
  }

  // The lock section of csrc/proxy.cc:54-92 moves the freed operation, and nothing else, from
  // its queue to the front of the free list.
  lemma SpliceQueued<T, O>(s: Exec<T, O>)
    requires Shape(s) && s.ring != []
    ensures var r := SpliceQueues(s);
      Queued(r.ring, r.chains) + multiset(r.free) == Queued(s.ring, s.chains) + multiset(s.free)
  {
    var t := NextTail(s);
    if !Frees(s) {
      QueuedRotate(s.ring, s.chains);
    } else {
      SpliceFreed(s);
      var r := SpliceQueues(s);
      MoveOne(Queued(r.ring, r.chains), s.free, s.Chain(t)[0]);
    }
  }

  lemma MoveOne<A>(c: multiset<A>, free: seq<A>, x: A)
    ensures c + multiset([x] + free) == c + multiset{x} + multiset(free)
  {
    assert multiset([x] + free) == multiset{x} + multiset(free);
  }

  lemma SpliceFreed<T, O>(s: Exec<T, O>)
    requires Shape(s) && s.ring != [] && Frees(s)
    ensures var r := SpliceQueues(s);
      Queued(r.ring, r.chains) + multiset{s.Chain(NextTail(s))[0]} == Queued(s.ring, s.chains)
  {
    var q, t := s.ring, NextTail(s);
    var chain := s.Chain(t);
    if |chain| > 1 {
      QueuedRotate(q, s.chains[t := chain[1..]]);
      QueuedShift(q, if |q| == 1 then 0 else 1, s.chains);
    } else {
      assert chain == [chain[0]];
      if |q| == 1 {
        QueuedSingle(t, s.chains);
        assert q == [t];
      } else {
        QueuedUnlink(q, s.chains);
      }
    }
  }

  lemma SpliceMembers<T, O>(s: Exec<T, O>, t: T)
    requires Shape(s) && s.ring != []
    ensures t in SpliceRing(s).0 <==> t in s.ring && !(Unlinks(s) && t == NextTail(s))
  {
    if !Unlinks(s) {
      RotateMembers(s.ring, 1, t);
    } else if |s.ring| >= 2 {
      RotateMembers(s.ring, 2, t);
    }
  }

  lemma SpliceShape<T, O>(s: Exec<T, O>)
    requires Shape(s) && s.ring != []
    ensures Shape(SpliceNext(s))
  {
    var r := SpliceNext(s);
    if !Unlinks(s) {
      NoDupRotate(s.ring, 1);
    } else if |s.ring| >= 2 {
      NoDupRotate(s.ring, 2);
    }
    forall t | t in r.ring ensures t in r.chains {
      SpliceMembers(s, t);
    }
    forall t | t in r.chains ensures t in r.ring && r.chains[t] != [] {
      SpliceMembers(s, t);
    }
  }

  lemma SpliceConserves<T, O>(s: Exec<T, O>)
    requires Inv(s) && s.ring != []
    ensures Conserved(SpliceNext(s))
  {
    SpliceQueued(s);
    var r := SpliceQueues(s);
    Exchange(multiset(s.free), multiset(s.held), Queued(s.ring, s.chains), multiset(r.free), Queued(r.ring, r.chains));
  }

  lemma SpliceKeeps<T, O>(s: Exec<T, O>)
    requires Inv(s) && s.phase == Splicing
    ensures Inv(SpliceNext(s))
  {
    SpliceShape(s);
    SpliceConserves(s);
  }

  lemma StepKeepsInv<T, O>(s: Exec<T, O>, l: Label<T, O>)
    requires Inv(s) && Enabled(s, l)
    ensures Inv(Step(s, l))
  {
    match l
    case Alloc(slab) => AllocateKeeps(s, slab);
    case Append(t, o, work) => EnqueueKeeps(s, t, o, work);
    case Splice => SpliceKeeps(s);
    case _ =>
  }
}
