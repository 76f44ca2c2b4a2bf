// The pointers of csrc/proxy.cc as values: a snapshot of every link, and what it means for a
// snapshot to represent a state of ProxyModel. Linear is the shape of the free list (through
// next) and of a peer chain (through nextPeer); Cycle is the shape of the ring (through next).

module ProxyLinks {
  import opened ProxyModel
  import opened Wrappers

  // What follows position k of q; `end` follows the last position.
  ghost function After<O>(q: seq<O>, k: nat, end: Option<O>): Option<O>
    requires k < |q|
  {
    if k + 1 < |q| then Some(q[k + 1]) else end
  }

  ghost function First<O>(q: seq<O>): Option<O> {
    if q == [] then None else Some(q[0])
  }

  ghost function Last<O>(q: seq<O>): Option<O> {
    if q == [] then None else Some(q[|q| - 1])
  }

  ghost predicate Linear<O>(q: seq<O>, link: map<O, Option<O>>) {
    forall k :: 0 <= k < |q| ==> q[k] in link && link[q[k]] == After(q, k, None)
  }

  ghost predicate Cycle<O>(q: seq<O>, link: map<O, Option<O>>) {
    forall k :: 0 <= k < |q| ==> q[k] in link && link[q[k]] == After(q, k, Some(q[0]))
  }

  lemma LinearFrame<O>(q: seq<O>, link: map<O, Option<O>>, x: O, y: Option<O>)
    requires Linear(q, link) && x !in q
    ensures Linear(q, link[x := y])
  {
  }

  lemma LinearTail<O>(q: seq<O>, link: map<O, Option<O>>)
    requires Linear(q, link) && q != []
    ensures Linear(q[1..], link)
  {
    var r := q[1..];
    forall k | 0 <= k < |r| ensures r[k] in link && link[r[k]] == After(r, k, None) {
      assert r[k] == q[k + 1];
    }
  }

  lemma LinearPush<O>(q: seq<O>, link: map<O, Option<O>>, x: O)
    requires Linear(q, link) && x !in q
    ensures Linear([x] + q, link[x := First(q)])
  {
  }

  lemma LinearSnoc<O>(q: seq<O>, link: map<O, Option<O>>, x: O)
    requires Linear(q, link) && q != [] && NoDup(q) && x !in q && x in link && link[x] == None
    ensures Linear(q + [x], link[q[|q| - 1] := Some(x)])
  {
  }

  lemma CycleFrame<O>(q: seq<O>, link: map<O, Option<O>>, x: O, y: Option<O>)
    requires Cycle(q, link) && x !in q
    ensures Cycle(q, link[x := y])
  {
  }

  lemma CycleRotate<O>(q: seq<O>, link: map<O, Option<O>>)
    requires Cycle(q, link) && q != []
    ensures Cycle(q[1..] + q[..1], link)
  {
    var r := q[1..] + q[..1];
    forall k | 0 <= k < |r| ensures r[k] in link && link[r[k]] == After(r, k, Some(r[0])) {
      assert r[k] == if k + 1 < |q| then q[k + 1] else q[0];
    }
  }

  // The splice of csrc/proxy.cc:132-133.
  lemma CycleInsert<O>(q: seq<O>, link: map<O, Option<O>>, k: nat, x: O)
    requires Cycle(q, link) && k < |q| && NoDup(q) && x !in q
    ensures Cycle(q[..k + 1] + [x] + q[k + 1..], link[x := link[q[k]]][q[k] := Some(x)])
  {
    var r := q[..k + 1] + [x] + q[k + 1..];
    var link' := link[x := link[q[k]]][q[k] := Some(x)];
    forall i | 0 <= i < |r| ensures r[i] in link' && link'[r[i]] == After(r, i, Some(r[0])) {
      assert r[i] == if i <= k then q[i] else if i == k + 1 then x else q[i - 1];
      assert r[0] == q[0];
    }
  }

  // The splice of csrc/proxy.cc:63-64: y takes the place of the second member.
  lemma CycleReplace<O>(q: seq<O>, link: map<O, Option<O>>, y: O)
    requires Cycle(q, link) && |q| >= 2 && NoDup(q) && y !in q
    ensures Cycle(q[1 := y], link[y := link[q[1]]][q[0] := Some(y)])
  {
  }

  // The splice of csrc/proxy.cc:71-72: the second member leaves.
  lemma CycleDrop<O>(q: seq<O>, link: map<O, Option<O>>)
    requires Cycle(q, link) && |q| >= 2 && NoDup(q)
    ensures Cycle(q[..1] + q[2..], link[q[0] := link[q[1]]])
  {
    var r := q[..1] + q[2..];
    var link' := link[q[0] := link[q[1]]];
    forall i | 0 <= i < |r| ensures r[i] in link' && link'[r[i]] == After(r, i, Some(r[0])) {
      assert r[i] == if i == 0 then q[0] else q[i + 1];
    }
  }

  lemma CycleDropRotate<O>(q: seq<O>, link: map<O, Option<O>>)
    requires Cycle(q, link) && |q| >= 2 && NoDup(q)
    ensures Cycle(q[2..] + q[..1], link[q[0] := link[q[1]]])
  {
    CycleDrop(q, link);
    var r := q[..1] + q[2..];
    CycleRotate(r, link[q[0] := link[q[1]]]);
    assert r[1..] + r[..1] == q[2..] + q[..1];
  }

  // The heads of the ring members, in ring order.
  ghost function Heads<T, O>(ring: seq<T>, chains: map<T, seq<O>>): (r: seq<O>)
    requires forall t :: t in ring ==> t in chains && chains[t] != []
    ensures |r| == |ring|
    ensures forall i :: 0 <= i < |ring| ==> r[i] == chains[ring[i]][0]
  {
    seq(|ring|, i requires 0 <= i < |ring| => chains[ring[i]][0])
  }

  lemma HeadsNoDup<T, O>(s: Exec<T, O>)
    requires Shape(s) && Apart(s)
    ensures NoDup(Heads(s.ring, s.chains))
    ensures forall o :: o in s.held || o in s.free ==> o !in Heads(s.ring, s.chains)
  {
    var h := Heads(s.ring, s.chains);
    forall i, j | 0 <= i < j < |h| ensures h[i] != h[j] {
      assert h[i] in s.chains[s.ring[i]] && h[j] in s.chains[s.ring[j]];
    }
    forall o | o in h ensures o !in s.held && o !in s.free {
      var i :| 0 <= i < |h| && h[i] == o;
      assert o in s.chains[s.ring[i]];
    }
  }

  lemma HeadsFrame<T, O>(ring: seq<T>, c1: map<T, seq<O>>, c2: map<T, seq<O>>)
    requires forall t :: t in ring ==> t in c1 && t in c2 && c1[t] != [] && c2[t] != [] && c1[t][0] == c2[t][0]
    ensures Heads(ring, c1) == Heads(ring, c2)
  {
  }

  // ---------------------------------------------------------------- representation

  datatype OpState = OpNone | OpReady | OpProgress

  // The pointer fields of the slab cells and tail cells, and the pointers of the handler.
  datatype Memory<T(==), O(==)> = Memory(
    next: map<O, Option<O>>,
    peer: map<O, Option<O>>,
    tailOf: map<O, Option<T>>,
    state: map<O, OpState>,
    last: map<T, Option<O>>,      // *tail, for every tail cell in use
    ops: Option<O>,
    pool: Option<O>,
    op: Option<O>)

  ghost predicate Known<T, O>(m: Memory<T, O>, cells: set<O>) {
    m.next.Keys == m.peer.Keys == m.tailOf.Keys == m.state.Keys == cells
  }

  // A tail cell is null exactly when its queue is empty, and else names the newest operation.
  ghost predicate TailsMatch<T, O>(last: map<T, Option<O>>, chains: map<T, seq<O>>) {
    && (forall t :: t in chains ==> t in last)
    && (forall t :: t in last ==> last[t] == if t in chains then Last(chains[t]) else None)
  }

  ghost predicate ChainsLinked<T, O>(chains: map<T, seq<O>>, peer: map<O, Option<O>>) {
    forall t :: t in chains ==> Linear(chains[t], peer)
  }

  // Every queued cell names its tail cell, and its state agrees with the work it still needs.
  ghost predicate Labelled<T, O>(tailOf: map<O, Option<T>>, state: map<O, OpState>, s: Exec<T, O>)
  {
    forall t, k :: t in s.chains && 0 <= k < |s.chains[t]| ==>
      && s.chains[t][k] in tailOf && s.chains[t][k] in state
      && tailOf[s.chains[t][k]] == Some(t)
      && (state[s.chains[t][k]] == OpNone <==> s.Left(s.chains[t][k]) == 0)
  }

  ghost predicate HeldClear<O>(held: set<O>, peer: map<O, Option<O>>) {
    forall o :: o in held ==> o in peer && peer[o] == None
  }

  ghost predicate RingLinked<T, O>(s: Exec<T, O>, next: map<O, Option<O>>) {
    Shape(s) && Cycle(Heads(s.ring, s.chains), next)
  }

  ghost predicate EndsMatch<T, O>(m: Memory<T, O>, s: Exec<T, O>) {
    && (s.ring != [] ==> s.anchor < |s.ring|)
    && m.pool == First(s.free)
    && m.ops == (if s.ring == [] then None else First(s.Chain(s.ring[s.anchor])))
    && m.op == (if s.Active() && s.ring != [] then First(s.Chain(s.ring[0])) else None)
  }

  ghost predicate Represents<T, O>(m: Memory<T, O>, s: Exec<T, O>) {
    && Inv(s)
    && Known(m, s.cells)
    && RingLinked(s, m.next)
    && Linear(s.free, m.next)
    && TailsMatch(m.last, s.chains)
    && ChainsLinked(s.chains, m.peer)
    && Labelled(m.tailOf, m.state, s)
    && HeldClear(s.held, m.peer)
    && EndsMatch(m, s)
  }

  // ---------------------------------------------------------------- ProxyArgsAppend

  lemma ChainsPush<T, O>(chains: map<T, seq<O>>, peer: map<O, Option<O>>, t: T, o: O)
    requires ChainsLinked(chains, peer) && t in chains && chains[t] != [] && NoDup(chains[t])
    requires o in peer && peer[o] == None && o !in chains[t]
    requires forall u :: u in chains && u != t ==> chains[t][|chains[t]| - 1] !in chains[u]
    ensures ChainsLinked(chains[t := chains[t] + [o]], peer[chains[t][|chains[t]| - 1] := Some(o)])
  {
    var x := chains[t][|chains[t]| - 1];
    LinearSnoc(chains[t], peer, o);
    forall u | u in chains && u != t ensures Linear(chains[u], peer[x := Some(o)]) {
      LinearFrame(chains[u], peer, x, Some(o));
    }
  }

  // Appending changes no label of a queued cell, and gives the new one its own.
  lemma LabelledAppend<T, O>(tailOf: map<O, Option<T>>, state: map<O, OpState>, s: Exec<T, O>, t: T, o: O, work: nat)
    requires Shape(s) && Labelled(tailOf, state, s) && Apart(s) && o in s.held
    requires o in tailOf && o in state && tailOf[o] == Some(t) && (state[o] == OpNone <==> work == 0)
    ensures Labelled(tailOf, state, Enqueue(s, t, o, work))
  {
    var s' := Enqueue(s, t, o, work);
    forall u, k | u in s'.chains && 0 <= k < |s'.chains[u]|
      ensures s'.chains[u][k] in tailOf && s'.chains[u][k] in state && tailOf[s'.chains[u][k]] == Some(u)
      ensures state[s'.chains[u][k]] == OpNone <==> s'.Left(s'.chains[u][k]) == 0
    {
      if u != t || k < |s.Chain(t)| {
        assert s'.chains[u][k] == s.chains[u][k] && s.chains[u][k] in s.chains[u];
      } else {
        assert s'.chains[u][k] == o;
      }
    }
  }

  lemma EnqueueTook<T, O>(m: Memory<T, O>, s: Exec<T, O>, t: T, o: O, work: nat)
    requires Represents(m, s) && o in s.held
    ensures Took(s, Append(t, o, work), Enqueue(s, t, o, work))
    ensures var s' := Enqueue(s, t, o, work);
      s'.cells == s.cells && s'.stop == s.stop && s'.idle == s.idle && s'.idleSpin == s.idleSpin && s'.slabs == s.slabs
  {
  }

  // What the pointer code needs to know about the tail cell and the ring member it reads.
  lemma TailFacts<T, O>(m: Memory<T, O>, s: Exec<T, O>, t: T)
    requires Represents(m, s) && t in m.last
    ensures m.last[t] == None <==> t !in s.chains
    ensures m.last[t] != None ==> m.last[t].value in m.peer && m.last[t].value !in s.held
  {
    hide Linear, Labelled, ChainsLinked, HeldClear, RingLinked, EndsMatch;
    Separation(s);
    if t in s.chains {
      var chain := s.chains[t];
      assert chain != [];
      assert m.last[t] == Some(chain[|chain| - 1]) && chain[|chain| - 1] in chain;
    }
  }

  lemma OpsFacts<T, O>(m: Memory<T, O>, s: Exec<T, O>)
    requires Represents(m, s)
    ensures m.ops == None <==> s.ring == []
    ensures m.ops != None ==> m.ops.value in m.next
  {
    hide Linear, Labelled, ChainsLinked, HeldClear, TailsMatch;
    if s.ring != [] {
      assert Heads(s.ring, s.chains)[s.anchor] == m.ops.value;
    }
  }

  lemma EnqueueEnds<T, O>(m: Memory<T, O>, s: Exec<T, O>, t: T, o: O, work: nat)
    requires Shape(s) && EndsMatch(m, s) && (t in s.chains || s.ring != [])
    ensures EndsMatch(m, Enqueue(s, t, o, work))
  {
    var s' := Enqueue(s, t, o, work);
    assert s'.ring[s'.anchor] == s.ring[s.anchor] && s'.ring[0] == s.ring[0];
  }

  lemma LastTail<T, O>(m: Memory<T, O>, s: Exec<T, O>, t: T, o: O)
    requires Represents(m, s) && t in s.chains && o in s.held
    ensures var chain := s.chains[t];
      chain != [] && m.last[t] == Some(chain[|chain| - 1]) && NoDup(chain) && o !in chain
    ensures var chain := s.chains[t]; forall u :: u in s.chains && u != t ==> chain[|chain| - 1] !in s.chains[u]
  {
    Separation(s);
    var chain := s.chains[t];
    assert chain[|chain| - 1] in chain;
  }

  lemma EndsFrame<T, O>(m: Memory<T, O>, m': Memory<T, O>, s: Exec<T, O>)
    requires EndsMatch(m, s) && m.ops == m'.ops && m.pool == m'.pool && m.op == m'.op
    ensures EndsMatch(m', s)
  {
  }

  lemma TailsSet<T, O>(last: map<T, Option<O>>, chains: map<T, seq<O>>, t: T, chain: seq<O>)
    requires TailsMatch(last, chains) && t in last && chain != []
    ensures TailsMatch(last[t := Last(chain)], chains[t := chain])
  {
  }

  lemma HeldShrink<O>(held: set<O>, peer: map<O, Option<O>>, o: O)
    requires HeldClear(held, peer)
    ensures HeldClear(held - {o}, peer)
  {
  }

  lemma HeldFrame<O>(held: set<O>, peer: map<O, Option<O>>, x: O, y: Option<O>)
    requires HeldClear(held, peer) && x !in held
    ensures HeldClear(held, peer[x := y])
  {
  }

  lemma RingFacts<T, O>(s: Exec<T, O>)
    requires Inv(s)
    ensures Shape(s)
    ensures forall t :: t in s.ring ==> t in s.chains && s.chains[t] != []
    ensures forall t :: t in s.chains ==> t in s.ring
    ensures s.ring != [] ==> s.anchor < |s.ring|
  {
  }

  // csrc/proxy.cc:136-139: the tail cell is not null.
  lemma AppendToQueue<T, O>(m: Memory<T, O>, s: Exec<T, O>, t: T, o: O, work: nat)
    requires Represents(m, s) && o in s.held && m.tailOf[o] == Some(t) && (m.state[o] == OpNone <==> work == 0)
    requires t in m.last && m.last[t] != None
    ensures Represents(m.(peer := m.peer[m.last[t].value := Some(o)], last := m.last[t := Some(o)]),
      Enqueue(s, t, o, work))
  {
    hide Inv, Shape, NoDup, Apart, Linear, Cycle, Labelled, ChainsLinked, EndsMatch, TailsMatch, HeldClear;
    Separation(s);
    RingFacts(s);
    TailFacts(m, s, t);
    LastTail(m, s, t, o);
    HeldMember(m, s, o);
    EnqueueKeeps(s, t, o, work);
    EnqueueEnds(m, s, t, o, work);
    ChainsPush(s.chains, m.peer, t, o);
    LabelledAppend(m.tailOf, m.state, s, t, o, work);
    HeadsFrame(s.ring, s.chains, s.chains[t := s.chains[t] + [o]]);
    EnqueueShape(s, t, o, work);
    TailsSet(m.last, s.chains, t, s.chains[t] + [o]);
    HeldFrame(s.held, m.peer, m.last[t].value, Some(o));
    HeldShrink(s.held, m.peer[m.last[t].value := Some(o)], o);
    var m' := m.(peer := m.peer[m.last[t].value := Some(o)], last := m.last[t := Some(o)]);
    EndsFrame(m, m', Enqueue(s, t, o, work));
    hide Heads;
  }

  lemma HeldMember<T, O>(m: Memory<T, O>, s: Exec<T, O>, o: O)
    requires Represents(m, s) && o in s.held
    ensures o in s.cells && m.peer[o] == None && o !in s.free && o !in Heads(s.ring, s.chains)
    ensures forall t :: t in s.chains ==> o !in s.chains[t]
    ensures NoDup(Heads(s.ring, s.chains))
  {
    Separation(s);
    HeadsNoDup(s);
  }

  lemma ChainsAdd<T, O>(chains: map<T, seq<O>>, peer: map<O, Option<O>>, t: T, o: O)
    requires ChainsLinked(chains, peer) && o in peer && peer[o] == None
    ensures ChainsLinked(chains[t := [] + [o]], peer)
  {
    var c := chains[t := [] + [o]];
    forall u | u in c ensures Linear(c[u], peer) {
    }
  }

  lemma HeadsInsert<T, O>(ring: seq<T>, k: nat, t: T, c1: map<T, seq<O>>, o: O)
    requires forall u :: u in ring ==> u in c1 && c1[u] != []
    requires k <= |ring| && t !in ring
    ensures Heads(ring[..k] + [t] + ring[k..], c1[t := [] + [o]]) == Heads(ring, c1)[..k] + [o] + Heads(ring, c1)[k..]
  {
    var r := ring[..k] + [t] + ring[k..];
    var h := Heads(ring, c1);
    assert forall i :: 0 <= i < |r| ==> r[i] == if i < k then ring[i] else if i == k then t else ring[i - 1];
    assert Heads(r, c1[t := [] + [o]]) == h[..k] + [o] + h[k..];
  }

  lemma EnqueueLink<T, O>(s: Exec<T, O>, next: map<O, Option<O>>, t: T, o: O, work: nat)
    requires RingLinked(s, next) && s.ring != [] && t !in s.chains && NoDup(Heads(s.ring, s.chains))
    requires o !in Heads(s.ring, s.chains) && o !in s.free
    requires Linear(s.free, next) && Heads(s.ring, s.chains)[s.anchor] !in s.free
    ensures var x := Heads(s.ring, s.chains)[s.anchor];
      x in next && Linear(s.free, next[o := next[x]][x := Some(o)])
    ensures var x := Heads(s.ring, s.chains)[s.anchor];
      RingLinked(Enqueue(s, t, o, work), next[o := next[x]][x := Some(o)])
  {
    hide Linear, Cycle;
    var x := Heads(s.ring, s.chains)[s.anchor];
    RingKnown(Heads(s.ring, s.chains), next, s.anchor);
    EnqueueShape(s, t, o, work);
    HeadsInsert(s.ring, s.anchor + 1, t, s.chains, o);
    CycleInsert(Heads(s.ring, s.chains), next, s.anchor, o);
    LinearFrame(s.free, next, o, next[x]);
    LinearFrame(s.free, next[o := next[x]], x, Some(o));
    hide Shape;
  }

  lemma RingKnown<O>(h: seq<O>, next: map<O, Option<O>>, k: nat)
    requires Cycle(h, next) && k < |h|
    ensures h[k] in next
  {
  }

  // csrc/proxy.cc:131-135: a new ring member after the one ops points to.
  lemma AppendToRing<T, O>(m: Memory<T, O>, s: Exec<T, O>, t: T, o: O, work: nat)
    requires Represents(m, s) && o in s.held && m.tailOf[o] == Some(t) && (m.state[o] == OpNone <==> work == 0)
    requires t in m.last && m.last[t] == None && m.ops != None
    ensures Represents(m.(next := m.next[o := m.next[m.ops.value]][m.ops.value := Some(o)],
      last := m.last[t := Some(o)]),
                       Enqueue(s, t, o, work))
  {
    hide Inv, Shape, NoDup, Apart, Linear, RingLinked, Labelled, ChainsLinked, EndsMatch, TailsMatch, HeldClear;
    Separation(s);
    RingFacts(s);
    TailFacts(m, s, t);
    OpsFacts(m, s);
    HeldMember(m, s, o);
    OpsMember(m, s);
    EnqueueKeeps(s, t, o, work);
    EnqueueShape(s, t, o, work);
    EnqueueEnds(m, s, t, o, work);
    ChainsAdd(s.chains, m.peer, t, o);
    LabelledAppend(m.tailOf, m.state, s, t, o, work);
    EnqueueLink(s, m.next, t, o, work);
    TailsSet(m.last, s.chains, t, [] + [o]);
    HeldShrink(s.held, m.peer, o);
    var m' := m.(next := m.next[o := m.next[m.ops.value]][m.ops.value := Some(o)], last := m.last[t := Some(o)]);
    EndsFrame(m, m', Enqueue(s, t, o, work));
    hide Heads;
  }

  lemma OpsMember<T, O>(m: Memory<T, O>, s: Exec<T, O>)
    requires Represents(m, s) && s.ring != []
    ensures m.ops == Some(Heads(s.ring, s.chains)[s.anchor])
    ensures m.ops.value in s.cells && m.ops.value !in s.held && m.ops.value !in s.free
  {
    Separation(s);
    assert m.ops.value in s.chains[s.ring[s.anchor]];
  }

  // csrc/proxy.cc:128-130 and 135: the ring was empty.
  lemma AppendFirst<T, O>(m: Memory<T, O>, s: Exec<T, O>, t: T, o: O, work: nat)
    requires Represents(m, s) && o in s.held && m.tailOf[o] == Some(t) && (m.state[o] == OpNone <==> work == 0)
    requires t in m.last && m.last[t] == None && m.ops == None
    ensures Represents(m.(next := m.next[o := Some(o)], ops := Some(o), last := m.last[t := Some(o)]),
      Enqueue(s, t, o, work))
  {
    hide Inv, Linear, Labelled, ChainsLinked, TailsMatch, HeldClear;
    TailFacts(m, s, t);
    OpsFacts(m, s);
    HeldMember(m, s, o);
    Separation(s);
    EnqueueKeeps(s, t, o, work);
    ChainsAdd(s.chains, m.peer, t, o);
    LabelledAppend(m.tailOf, m.state, s, t, o, work);
    EnqueueShape(s, t, o, work);
    TailsSet(m.last, s.chains, t, [] + [o]);
    HeldShrink(s.held, m.peer, o);
    LinearFrame(s.free, m.next, o, Some(o));
    assert Heads([t], s.chains[t := [] + [o]]) == [o];
    hide Apart, NoDup;
  }

  // ---------------------------------------------------------------- the splice of csrc/proxy.cc:57-82

  // What the lock section reads: the operation after the cursor, its state, its peer, its tail.
  lemma SpliceFacts<T, O>(m: Memory<T, O>, s: Exec<T, O>)
    requires Represents(m, s) && s.phase == Splicing
    ensures s.ring != [] && NextTail(s) in s.chains && s.Chain(NextTail(s)) != [] && s.anchor < |s.ring|
    ensures NextTail(s) in m.last && m.pool == First(s.free)
    ensures var h, i := Heads(s.ring, s.chains), if |s.ring| == 1 then 0 else 1;
      && m.op == Some(h[0]) && m.ops == Some(h[s.anchor])
      && s.Chain(NextTail(s))[0] == h[i]
      && h[0] in m.next && m.next[h[0]] == Some(h[i])
      && h[i] in m.next && m.next[h[i]] == After(h, i, Some(h[0]))
      && h[i] in m.peer && m.peer[h[i]] == First(s.Chain(NextTail(s))[1..])
      && h[i] in m.tailOf && m.tailOf[h[i]] == Some(NextTail(s))
      && h[i] in m.state && (m.state[h[i]] == OpNone <==> Frees(s))
  {
    hide TailsMatch, HeldClear;
    var h := Heads(s.ring, s.chains);
    var i := if |s.ring| == 1 then 0 else 1;
    var chain := s.chains[s.ring[i]];
    assert h[i] == chain[0];
    assert Linear(chain, m.peer);
    assert m.peer[chain[0]] == After(chain, 0, None);
    TailKnown(m, s, s.ring[i]);
  }

  lemma TailKnown<T, O>(m: Memory<T, O>, s: Exec<T, O>, t: T)
    requires Represents(m, s) && t in s.chains
    ensures t in m.last
  {
  }

  lemma FirstOnce<A>(q: seq<A>, k: nat)
    requires NoDup(q) && 1 <= k < |q|
    ensures q[0] != q[k] && q[k] in q
  {
  }

  // The cells involved are different where the pointer code relies on it.
  lemma SpliceApart<T, O>(s: Exec<T, O>)
    requires Inv(s) && s.phase == Splicing
    ensures s.ring != [] && NextTail(s) in s.chains && s.Chain(NextTail(s)) != []
    ensures var h, chain := Heads(s.ring, s.chains), s.Chain(NextTail(s));
      && NoDup(h)
      && (forall k :: 0 <= k < |h| ==> h[k] !in s.free && h[k] in s.cells)
      && (forall k :: 1 <= k < |chain| ==> chain[k] !in h && chain[k] !in s.free && chain[k] in s.cells)
  {
    Separation(s);
    HeadsNoDup(s);
    var h, chain := Heads(s.ring, s.chains), s.Chain(NextTail(s));
    assert NoDup(chain);
    hide Conserved, NoDup;
    forall k | 0 <= k < |h| ensures h[k] !in s.free && h[k] in s.cells {
      assert h[k] in s.chains[s.ring[k]];
    }
    forall k | 1 <= k < |chain| ensures chain[k] !in h && chain[k] !in s.free && chain[k] in s.cells {
      FirstOnce(chain, k);
      forall j | 0 <= j < |h| ensures h[j] != chain[k] {
        assert h[j] in s.chains[s.ring[j]];
      }
    }
  }

  // op == freeOp in the source: the ring has one member.
  lemma CursorAlone<T, O>(m: Memory<T, O>, s: Exec<T, O>)
    requires Represents(m, s) && s.phase == Splicing
    ensures m.op != None && m.op.value in m.next
    ensures m.op == m.next[m.op.value] <==> |s.ring| == 1
  {
    SpliceFacts(m, s);
    SpliceApart(s);
  }

  lemma ChainsShrink<T, O>(chains: map<T, seq<O>>, peer: map<O, Option<O>>, t: T)
    requires ChainsLinked(chains, peer) && t in chains && chains[t] != []
    ensures ChainsLinked(chains[t := chains[t][1..]], peer) && ChainsLinked(chains - {t}, peer)
  {
    LinearTail(chains[t], peer);
  }

  lemma TailsShrink<T, O>(last: map<T, Option<O>>, chains: map<T, seq<O>>, t: T)
    requires TailsMatch(last, chains) && t in chains && chains[t] != []
    ensures |chains[t]| > 1 ==> TailsMatch(last, chains[t := chains[t][1..]])
    ensures TailsMatch(last[t := None], chains - {t})
  {
  }

  lemma LabelledShrink<T, O>(tailOf: map<O, Option<T>>, state: map<O, OpState>, s: Exec<T, O>)
    requires Shape(s) && s.ring != [] && Labelled(tailOf, state, s)
    ensures Labelled(tailOf, state, SpliceNext(s))
  {
    var s' := SpliceNext(s);
    forall u, k | u in s'.chains && 0 <= k < |s'.chains[u]|
      ensures s'.chains[u][k] in tailOf && s'.chains[u][k] in state && tailOf[s'.chains[u][k]] == Some(u)
      ensures state[s'.chains[u][k]] == OpNone <==> s'.Left(s'.chains[u][k]) == 0
    {
      assert s'.chains[u][k] == s.chains[u][if u == NextTail(s) && Frees(s) then k + 1 else k];
    }
  }

  // EndsMatch in terms of the heads.
  lemma EndsByHeads<T, O>(m: Memory<T, O>, s: Exec<T, O>)
    requires Shape(s) && m.pool == First(s.free)
    requires var h := Heads(s.ring, s.chains);
      && m.ops == (if h == [] then None else Some(h[s.anchor]))
      && m.op == (if s.Active() then Some(h[0]) else None)
    ensures EndsMatch(m, s)
  {
  }

  // The heads of the ring after the splice; y is the head of the freed operation's queue then.
  ghost function SplicedHeads<O>(h: seq<O>, rest: Option<seq<O>>): seq<O>
    requires h != []
  {
    match rest
    case None => h[1..] + h[..1]
    case Some(chain) =>
      if chain == [] then (if |h| == 1 then [] else h[2..] + h[..1])
      else if |h| == 1 then [chain[0]] else [chain[0]] + h[2..] + h[..1]
  }

  lemma HeadsRotate<T, O>(q: seq<T>, k: nat, chains: map<T, seq<O>>)
    requires 1 <= k <= |q| && forall t :: t in q ==> t in chains && chains[t] != []
    ensures var h := Heads(q, chains);
      (forall t :: t in q[k..] + q[..1] ==> t in q) && Heads(q[k..] + q[..1], chains) == h[k..] + h[..1]
  {
    var r, h := q[k..] + q[..1], Heads(q, chains);
    forall i | 0 <= i < |r| ensures r[i] in q && chains[r[i]][0] == (h[k..] + h[..1])[i] {
      assert r[i] == if i < |q| - k then q[i + k] else q[0];
    }
  }

  lemma HeadsReplace<T, O>(q: seq<T>, i: nat, chains: map<T, seq<O>>, chain: seq<O>)
    requires NoDup(q) && i < |q| && chain != [] && forall t :: t in q ==> t in chains && chains[t] != []
    ensures Heads(q, chains[q[i] := chain]) == Heads(q, chains)[i := chain[0]]
  {
  }

  lemma SpliceHeads<T, O>(s: Exec<T, O>)
    requires Shape(s) && s.phase == Splicing
    ensures Shape(SpliceNext(s)) && NextTail(s) in s.chains && s.Chain(NextTail(s)) != []
    ensures var s', chain := SpliceNext(s), s.Chain(NextTail(s));
      Heads(s'.ring, s'.chains) == SplicedHeads(Heads(s.ring, s.chains), if Frees(s) then Some(chain[1..]) else None)
  {
    SpliceShape(s);
    var t := NextTail(s);
    hide Shape;
    if !Frees(s) {
      HeadsRotate(s.ring, 1, s.chains);
    } else if |s.chains[t]| > 1 {
      RotateReplaced(s.ring, s.chains, s.chains[t][1..]);
    } else if |s.ring| > 1 {
      HeadsRotate(s.ring, 2, s.chains);
      HeadsFrame(s.ring[2..] + s.ring[..1], s.chains, s.chains - {t});
    }
  }

  lemma RotateReplaced<T, O>(q: seq<T>, chains: map<T, seq<O>>, rest: seq<O>)
    requires NoDup(q) && q != [] && rest != [] && forall t :: t in q ==> t in chains && chains[t] != []
    ensures forall t :: t in q[1..] + q[..1] ==> t in q
    ensures Heads(q[1..] + q[..1], chains[(if |q| == 1 then q[0] else q[1]) := rest]) ==
      SplicedHeads(Heads(q, chains), Some(rest))
  {
    var i := if |q| == 1 then 0 else 1;
    var c := chains[q[i] := rest];
    var h := Heads(q, chains);
    HeadsReplace(q, i, chains, rest);
    HeadsRotate(q, 1, c);
    assert Heads(q, c) == h[i := rest[0]];
    assert h[i := rest[0]][1..] + h[i := rest[0]][..1] == SplicedHeads(h, Some(rest));
  }

  ghost function NewHeads<T, O>(s: Exec<T, O>): seq<O>
    requires Inv(s) && s.phase == Splicing
  {
    SplicedHeads(Heads(s.ring, s.chains), if Frees(s) then Some(s.Chain(NextTail(s))[1..]) else None)
  }

  lemma SpliceLinks<T, O>(s: Exec<T, O>, next: map<O, Option<O>>)
    requires Inv(s) && s.phase == Splicing && Cycle(NewHeads(s), next)
    ensures RingLinked(SpliceNext(s), next)
  {
    hide NoDup, Cycle, SplicedHeads, Conserved;
    SpliceHeads(s);
  }

  lemma SpliceEnds<T, O>(m: Memory<T, O>, s: Exec<T, O>)
    requires Inv(s) && s.phase == Splicing && m.pool == First(SpliceNext(s).free)
    requires m.op == First(NewHeads(s))
    requires SpliceNext(s).anchor < |NewHeads(s)| || NewHeads(s) == []
    requires m.ops == if NewHeads(s) == [] then None else Some(NewHeads(s)[SpliceNext(s).anchor])
    ensures EndsMatch(m, SpliceNext(s))
  {
    hide NoDup, SplicedHeads, Conserved, EndsMatch;
    SpliceHeads(s);
    EndsByHeads(m, SpliceNext(s));
  }

  lemma SpliceChains<T, O>(last: map<T, Option<O>>, peer: map<O, Option<O>>, s: Exec<T, O>)
    requires Inv(s) && s.phase == Splicing && TailsMatch(last, s.chains) && ChainsLinked(s.chains, peer)
    ensures ChainsLinked(SpliceNext(s).chains, peer)
    ensures TailsMatch(if Unlinks(s) then last[NextTail(s) := None] else last, SpliceNext(s).chains)
  {
    ChainsShrink(s.chains, peer, NextTail(s));
    TailsShrink(last, s.chains, NextTail(s));
    hide Inv, ChainsLinked, TailsMatch;
  }

  // What is left to show of a splice once the links are known.
  lemma SpliceAssemble<T, O>(m: Memory<T, O>, s: Exec<T, O>, m': Memory<T, O>)
    requires Represents(m, s) && s.phase == Splicing
    requires m'.peer == m.peer && m'.tailOf == m.tailOf && m'.state == m.state && m'.next.Keys == m.next.Keys
    requires Cycle(NewHeads(s), m'.next)
    requires var s' := SpliceNext(s); Linear(s'.free, m'.next) && m'.pool == First(s'.free)
    requires m'.last == if Unlinks(s) then m.last[NextTail(s) := None] else m.last
    requires m'.op == First(NewHeads(s))
    requires SpliceNext(s).anchor < |NewHeads(s)| || NewHeads(s) == []
    requires m'.ops == if NewHeads(s) == [] then None else Some(NewHeads(s)[SpliceNext(s).anchor])
    ensures Represents(m', SpliceNext(s))
  {
    hide Inv, NoDup, Linear, Cycle, Labelled, ChainsLinked, EndsMatch, TailsMatch, HeldClear, RingLinked, NewHeads;
    RingFacts(s);
    SpliceKeeps(s);
    SpliceLinks(s, m'.next);
    SpliceEnds(m', s);
    SpliceChains(m.last, m.peer, s);
    LabelledShrink(m.tailOf, m.state, s);
    hide Shape;
  }

  // Putting the freed cell in front of the free list (csrc/proxy.cc:79-80).
  lemma Recycle<O>(h: seq<O>, free: seq<O>, next: map<O, Option<O>>, f: O)
    requires Cycle(h, next) && Linear(free, next) && f !in h && f !in free
    ensures Cycle(h, next[f := First(free)]) && Linear([f] + free, next[f := First(free)])
  {
    CycleFrame(h, next, f, First(free));
    LinearPush(free, next, f);
  }

  // The link writes of csrc/proxy.cc:63-64 and 79-80.
  lemma ReplaceLinks<O>(h: seq<O>, free: seq<O>, next: map<O, Option<O>>, y: O)
    requires Cycle(h, next) && |h| >= 2 && NoDup(h) && y !in h
    requires Linear(free, next) && y !in free && h[0] !in free && h[1] !in free
    ensures var next' := next[y := next[h[1]]][h[0] := Some(y)][h[1] := First(free)];
      Cycle([y] + h[2..] + h[..1], next') && Linear([h[1]] + free, next')
  {
    assert h[1] in next;
    hide Linear, Cycle;
    var q, next1 := h[1 := y], next[y := next[h[1]]][h[0] := Some(y)];
    CycleReplace(h, next, y);
    CycleRotate(q, next1);
    assert q[1..] + q[..1] == [y] + h[2..] + h[..1];
    LinearFrame(free, next, y, next[h[1]]);
    LinearFrame(free, next[y := next[h[1]]], h[0], Some(y));
    Recycle([y] + h[2..] + h[..1], free, next1, h[1]);
  }

  // The link writes of csrc/proxy.cc:71-72 and 79-80.
  lemma DropLinks<O>(h: seq<O>, free: seq<O>, next: map<O, Option<O>>)
    requires Cycle(h, next) && |h| >= 2 && NoDup(h)
    requires Linear(free, next) && h[0] !in free && h[1] !in free
    ensures var next' := next[h[0] := next[h[1]]][h[1] := First(free)];
      Cycle(h[2..] + h[..1], next') && Linear([h[1]] + free, next')
  {
    CycleDropRotate(h, next);
    LinearFrame(free, next, h[0], next[h[1]]);
    hide Linear, Cycle;
    Recycle(h[2..] + h[..1], free, next[h[0] := next[h[1]]], h[1]);
  }

  // csrc/proxy.cc:57 and 82 when the next operation is not finished.
  lemma SpliceNothing<T, O>(m: Memory<T, O>, s: Exec<T, O>)
    requires Represents(m, s) && s.phase == Splicing && !Frees(s)
    ensures m.op != None && m.op.value in m.next
    ensures Represents(m.(op := m.next[m.op.value]), SpliceNext(s))
  {
    hide Inv, NoDup, Linear, Cycle, Labelled, ChainsLinked, EndsMatch, TailsMatch, HeldClear, Shape, Conserved;
    RingFacts(s);
    SpliceFacts(m, s);
    var h := Heads(s.ring, s.chains);
    CycleRotate(h, m.next);
    SpliceAssemble(m, s, m.(op := m.next[m.op.value]));
  }

  // csrc/proxy.cc:60-64: the successor y takes the place of the freed operation f.
  lemma SpliceReplaceMany<T, O>(m: Memory<T, O>, s: Exec<T, O>, x: O, f: O, y: O)
    requires Represents(m, s) && s.phase == Splicing && Frees(s) && !Unlinks(s) && |s.ring| > 1
    requires m.op == Some(x) && x in m.next && m.next[x] == Some(f) && f in m.next && f in m.peer
      && m.peer[f] == Some(y)
    ensures Represents(
      m.(next := m.next[y := m.next[f]][x := Some(y)][f := m.pool], pool := Some(f), op := Some(y),
         ops := if m.ops == Some(f) then Some(y) else m.ops),
      SpliceNext(s))
  {
    hide Inv, Linear, Cycle, Labelled, ChainsLinked, EndsMatch, TailsMatch, HeldClear, Shape, Conserved;
    RingFacts(s);
    SpliceFacts(m, s);
    SpliceApart(s);
    var h := Heads(s.ring, s.chains);
    ReplaceLinks(h, s.free, m.next, y);
    assert [y] + h[2..] + h[..1] == NewHeads(s);
    hide SplicedHeads, Heads, NoDup;
    var next1 := m.next[y := m.next[f]][x := Some(y)];
    SpliceAssemble(m, s, m.(next := next1[f := m.pool], pool := Some(f), op := Some(y),
                            ops := if m.ops == Some(f) then Some(y) else m.ops));
  }

  // csrc/proxy.cc:60-66: the same in a ring of one member.
  lemma SpliceReplaceOne<T, O>(m: Memory<T, O>, s: Exec<T, O>, f: O, y: O)
    requires Represents(m, s) && s.phase == Splicing && Frees(s) && !Unlinks(s) && |s.ring| == 1
    requires m.op == Some(f) && f in m.peer && m.peer[f] == Some(y)
    ensures Represents(
      m.(next := m.next[y := Some(y)][f := m.pool], pool := Some(f), op := Some(y), ops := Some(y)), SpliceNext(s))
  {
    hide Inv, Linear, Labelled, ChainsLinked, EndsMatch, TailsMatch, HeldClear, Shape, Conserved;
    RingFacts(s);
    SpliceFacts(m, s);
    SpliceApart(s);
    LinearFrame(s.free, m.next, y, Some(y));
    Recycle([y], s.free, m.next[y := Some(y)], f);
    SpliceAssemble(m, s, m.(next := m.next[y := Some(y)][f := m.pool], pool := Some(f), op := Some(y), ops := Some(y)));
  }

  // csrc/proxy.cc:69-72: the queue of f is empty now and leaves the ring.
  lemma SpliceUnlinkMany<T, O>(m: Memory<T, O>, s: Exec<T, O>, x: O, f: O)
    requires Represents(m, s) && s.phase == Splicing && Unlinks(s) && |s.ring| > 1
    requires m.op == Some(x) && x in m.next && m.next[x] == Some(f) && f in m.next
    ensures Represents(
      m.(next := m.next[x := m.next[f]][f := m.pool], pool := Some(f), op := m.next[f],
         last := m.last[NextTail(s) := None], ops := if m.ops == Some(f) then m.next[f] else m.ops),
      SpliceNext(s))
  {
    hide Inv, Linear, Cycle, Labelled, ChainsLinked, EndsMatch, TailsMatch, HeldClear, Shape, Conserved;
    RingFacts(s);
    SpliceFacts(m, s);
    SpliceApart(s);
    var h := Heads(s.ring, s.chains);
    DropLinks(h, s.free, m.next);
    assert h[2..] + h[..1] == NewHeads(s);
    hide SplicedHeads, Heads, NoDup;
    var next1 := m.next[x := m.next[f]];
    SpliceAssemble(m, s, m.(next := next1[f := m.pool], pool := Some(f), op := m.next[f],
                            last := m.last[NextTail(s) := None], ops := if m.ops == Some(f) then m.next[f] else m.ops));
  }

  // csrc/proxy.cc:69 and 74: the ring runs empty.
  lemma SpliceUnlinkLast<T, O>(m: Memory<T, O>, s: Exec<T, O>, f: O)
    requires Represents(m, s) && s.phase == Splicing && Unlinks(s) && |s.ring| == 1
    requires m.op == Some(f)
    ensures Represents(
      m.(next := m.next[f := m.pool], pool := Some(f), op := None, last := m.last[NextTail(s) := None], ops := None),
      SpliceNext(s))
  {
    hide Inv, Linear, Labelled, ChainsLinked, EndsMatch, TailsMatch, HeldClear, Shape, Conserved;
    RingFacts(s);
    SpliceFacts(m, s);
    SpliceApart(s);
    Recycle([], s.free, m.next, f);
    SpliceAssemble(m, s, m.(next := m.next[f := m.pool], pool := Some(f), op := None,
                            last := m.last[NextTail(s) := None], ops := None));
  }

  // ---------------------------------------------------------------- allocateArgs

  ghost predicate Extends<A, B>(link: map<A, B>, link': map<A, B>) {
    forall x :: x in link ==> x in link' && link'[x] == link[x]
  }

  // The entries of a field of a zeroed slab.
  lemma ExtendsSelf<A, B>(link: map<A, B>)
    ensures Extends(link, link)
  {
  }

  function Zeroed<A, B>(link: map<A, B>, slab: seq<A>, zero: B): map<A, B> {
    link + map c | c in slab :: zero
  }

  lemma ZeroedExtends<A, B>(link: map<A, B>, slab: seq<A>, zero: B)
    requires forall c :: c in slab ==> c !in link
    ensures Extends(link, Zeroed(link, slab, zero))
    ensures Zeroed(link, slab, zero).Keys == link.Keys + Elems(slab)
  {
  }

  lemma LinksExtend<T, O>(s: Exec<T, O>, next: map<O, Option<O>>, next': map<O, Option<O>>,
                          peer: map<O, Option<O>>, peer': map<O, Option<O>>)
    requires RingLinked(s, next) && ChainsLinked(s.chains, peer) && HeldClear(s.held, peer)
    requires Extends(next, next') && Extends(peer, peer')
    ensures RingLinked(s, next') && ChainsLinked(s.chains, peer') && HeldClear(s.held, peer')
  {
    forall t | t in s.chains ensures Linear(s.chains[t], peer') {
      assert Linear(s.chains[t], peer);
    }
  }

  // csrc/proxy.cc:156-167: a new slab becomes the free list.
  lemma RefillRepresents<T, O>(m: Memory<T, O>, s: Exec<T, O>, slab: seq<O>, m': Memory<T, O>)
    requires Represents(m, s) && m.pool == None && FreshSlab(s, slab)
    requires Extends(m.next, m'.next) && Extends(m.peer, m'.peer) && Extends(m.tailOf, m'.tailOf)
      && Extends(m.state, m'.state)
    requires Known(m', s.cells + Elems(slab))
    requires Linear(slab, m'.next) && m'.pool == Some(slab[0])
    requires m'.last == m.last && m'.ops == m.ops && m'.op == m.op
    ensures s.free == [] && Represents(m', Refill(s, slab))
  {
    hide Inv, Linear, Cycle, ChainsLinked, HeldClear, TailsMatch, NoDup, Conserved;
    RefillKeeps(s, slab);
    RingFacts(s);
    RingFacts(Refill(s, slab));
    LinksExtend(s, m.next, m'.next, m.peer, m'.peer);
    hide Shape, Cycle;
  }

  // States that agree on their queues have the same links and labels.
  lemma SameQueues<T, O>(s: Exec<T, O>, s': Exec<T, O>, next: map<O, Option<O>>, tailOf: map<O, Option<T>>,
      state: map<O, OpState>)
    requires Inv(s') && s'.ring == s.ring && s'.chains == s.chains && s'.todo == s.todo
    requires RingLinked(s, next) && Labelled(tailOf, state, s)
    ensures RingLinked(s', next) && Labelled(tailOf, state, s')
  {
  }

  lemma TakeLinks<T, O>(s: Exec<T, O>, next: map<O, Option<O>>, o: O)
    requires RingLinked(s, next) && Linear(s.free, next) && s.free != []
    requires o !in Heads(s.ring, s.chains) && o !in s.free[1..]
    ensures RingLinked(s, next[o := None]) && Linear(s.free[1..], next[o := None])
  {
    CycleFrame(Heads(s.ring, s.chains), next, o, None);
    LinearTail(s.free, next);
    LinearFrame(s.free[1..], next, o, None);
    hide Linear, Cycle, Shape;
  }

  lemma RefillZeroed<T, O>(m: Memory<T, O>, s: Exec<T, O>, slab: seq<O>, next': map<O, Option<O>>)
    requires Represents(m, s) && m.pool == None && FreshSlab(s, slab)
    requires Extends(m.next, next') && next'.Keys == m.next.Keys + Elems(slab) && Linear(slab, next')
    ensures Represents(
      Memory(next', Zeroed(m.peer, slab, None), Zeroed(m.tailOf, slab, None), Zeroed(m.state, slab, OpNone),
             m.last, m.ops, Some(slab[0]), m.op),
      Refill(s, slab))
  {
    hide Inv, Linear, Extends, ChainsLinked, HeldClear, TailsMatch, Labelled, RingLinked, EndsMatch, Zeroed, NoDup,
         Elems;
    ZeroedExtends(m.peer, slab, None);
    ZeroedExtends(m.tailOf, slab, None);
    ZeroedExtends(m.state, slab, OpNone);
    RefillRepresents(m, s, slab,
      Memory(next', Zeroed(m.peer, slab, None), Zeroed(m.tailOf, slab, None), Zeroed(m.state, slab, OpNone),
             m.last, m.ops, Some(slab[0]), m.op));
  }

  // csrc/proxy.cc:168-171: the first free cell goes to the client with its links cleared.
  lemma TakeRepresents<T, O>(m: Memory<T, O>, s: Exec<T, O>, o: O)
    requires Represents(m, s) && m.pool == Some(o)
    ensures o in m.next && s.free != [] && s.free[0] == o
    ensures Represents(m.(pool := m.next[o], next := m.next[o := None], peer := m.peer[o := None]),
                       s.(free := s.free[1..], held := s.held + {o}))
  {
    hide Inv, Linear, RingLinked, Labelled, TailsMatch, ChainsLinked;
    TakeFacts(m, s, o);
    TakeLinks(s, m.next, o);
    ChainsClear(s.chains, m.peer, o);
    SameQueues(s, s.(free := s.free[1..], held := s.held + {o}), m.next[o := None], m.tailOf, m.state);
  }

  lemma ChainsClear<T, O>(chains: map<T, seq<O>>, peer: map<O, Option<O>>, o: O)
    requires ChainsLinked(chains, peer) && forall t :: t in chains ==> o !in chains[t]
    ensures ChainsLinked(chains, peer[o := None])
  {
    forall t | t in chains ensures Linear(chains[t], peer[o := None]) {
      LinearFrame(chains[t], peer, o, None);
    }
  }

  lemma TakeFacts<T, O>(m: Memory<T, O>, s: Exec<T, O>, o: O)
    requires Represents(m, s) && m.pool == Some(o)
    ensures o in m.next && m.next[o] == First(s.free[1..]) && s.free != [] && s.free[0] == o
    ensures o !in s.held && o !in Heads(s.ring, s.chains) && o !in s.free[1..]
    ensures forall t :: t in s.chains ==> o !in s.chains[t]
    ensures Inv(s.(free := s.free[1..], held := s.held + {o}))
  {
    Separation(s);
    HeadsNoDup(s);
    AllocateKeeps(s, []);
    assert Linear(s.free, m.next);
    assert m.next[s.free[0]] == After(s.free, 0, None);
  }

  // ---------------------------------------------------------------- the steps that move no cell

  lemma ViewFrame<T, O>(m: Memory<T, O>, s: Exec<T, O>, s': Exec<T, O>)
    requires Represents(m, s) && Inv(s')
    requires s'.ring == s.ring && s'.chains == s.chains && s'.anchor == s.anchor && s'.todo == s.todo
    requires s'.free == s.free && s'.held == s.held && s'.cells == s.cells
    ensures Represents(m.(op := if s'.Active() && s.ring != [] then First(s.Chain(s.ring[0])) else None), s')
  {
    hide Linear, Cycle;
    hide NoDup, Conserved, ChainsLinked, HeldClear, TailsMatch;
  }

  lemma CursorFacts<T, O>(m: Memory<T, O>, s: Exec<T, O>)
    requires Represents(m, s)
    ensures s.ring == [] <==> m.ops == None
    ensures s.phase == Fetching && s.ring != [] ==> m.ops == First(s.Chain(s.ring[0]))
    ensures m.op == if s.Active() && s.ring != [] then First(s.Chain(s.ring[0])) else None
    ensures s.Active() ==> s.ring != [] && s.Chain(s.ring[0]) != []
    ensures s.Active() ==>
      m.op == Some(Current(s)) && Current(s) in m.state && (m.state[Current(s)] == OpNone <==> s.Left(Current(s)) == 0)
  {
    hide Linear, Cycle, NoDup, Conserved, ChainsLinked, HeldClear, TailsMatch;
    if s.Active() {
      assert s.ring[0] in s.chains;
      assert Current(s) == s.chains[s.ring[0]][0];
    }
  }

  lemma LabelledVisit<T, O>(tailOf: map<O, Option<T>>, state: map<O, OpState>, s: Exec<T, O>, s': Exec<T, O>,
                            o: O, st: OpState, left: nat)
    requires Labelled(tailOf, state, s) && s'.chains == s.chains && s'.todo == s.todo[o := left]
    requires st == OpNone <==> left == 0
    ensures Labelled(tailOf, state[o := st], s')
  {
    forall t, k | t in s'.chains && 0 <= k < |s'.chains[t]|
      ensures s'.chains[t][k] in state && (state[o := st][s'.chains[t][k]] == OpNone <==> s'.Left(s'.chains[t][k]) == 0)
    {
      assert s'.chains[t][k] == s.chains[t][k];
    }
  }

  // csrc/proxy.cc:49-53: the callback stores a new state in its own operation only.
  lemma VisitRepresents<T, O>(m: Memory<T, O>, s: Exec<T, O>, s': Exec<T, O>, o: O, st: OpState, left: nat)
    requires Represents(m, s) && s.Active() && m.op == Some(o) && Inv(s')
    requires s' == s.(todo := s.todo[o := left], idle := s'.idle, phase := Splicing)
    requires st == OpNone <==> left == 0
    ensures o in m.state && Represents(m.(state := m.state[o := st]), s')
  {
    hide Linear, Cycle, NoDup, Conserved, ChainsLinked, HeldClear, TailsMatch, Apart, Labelled;
    CursorFacts(m, s);
    LabelledVisit(m.tailOf, m.state, s, s', o, st, left);
  }

  // op == handler->ops tells exactly that the cursor is back at the ring member ops points to.
  lemma ArrivalTest<T, O>(m: Memory<T, O>, s: Exec<T, O>)
    requires Represents(m, s) && (s.Active() || s.ring == [])
    ensures m.op == m.ops <==> s.anchor == 0
  {
    Separation(s);
    HeadsNoDup(s);
    if s.ring != [] {
      var h := Heads(s.ring, s.chains);
      assert m.op == Some(h[0]) && m.ops == Some(h[s.anchor]);
    }
  }

  lemma SpliceTook<T, O>(m: Memory<T, O>, s: Exec<T, O>)
    requires Represents(m, s) && s.phase == Splicing
    ensures Took(s, Splice, SpliceNext(s))
    ensures s.ring != [] && s.Chain(NextTail(s)) != [] && s.anchor < |s.ring|
    ensures AboutToYield(s) == (Arrives(s) && s.idle && s.idleSpin + 1 == SPIN_LIMIT)
    ensures var s' := SpliceNext(s);
      && s'.stop == s.stop && s'.slabs == s.slabs && (s'.Active() || s'.ring == [])
      && Arrives(s) == (s'.anchor == 0)
      && s'.idle == (s.idle || Arrives(s))
      && s'.idleSpin ==
         if AboutToYield(s) then 0
         else if Arrives(s) && s.idle then Spin(s.idle, s.idleSpin) + 1
         else Spin(s.idle, s.idleSpin)
    ensures s.idleSpin < SPIN_LIMIT
  {
    hide Conserved, NoDup, Linear, Cycle, Labelled, ChainsLinked, TailsMatch, HeldClear, EndsMatch;
  }

  lemma InitRepresents<T, O>(last: map<T, Option<O>>)
    requires forall t :: t in last ==> last[t] == None
    ensures Represents(Memory(map[], map[], map[], map[], last, None, None, None), Init())
  {
  }

  lemma AllocTook<T, O>(m: Memory<T, O>, s: Exec<T, O>, slab: seq<O>)
    requires Represents(m, s) && (m.pool == None ==> FreshSlab(s, slab))
    ensures m.pool == First(s.free) && m.next.Keys == m.peer.Keys == m.tailOf.Keys == m.state.Keys == s.cells && Inv(s)
    ensures Stock(s, slab) != []
    ensures Took(s, Alloc(slab), Allocate(s, slab))
    ensures var r := Refill(s, slab);
      Allocate(s, slab) == r.(free := r.free[1..], held := r.held + {r.free[0]}) && r.free == Stock(s, slab)
      && (m.pool != None ==> r == s)
      && Allocate(s, slab).slabs == (if m.pool == None then s.slabs + 1 else s.slabs)
      && Allocate(s, slab).stop == s.stop && Allocate(s, slab).idle == s.idle
          && Allocate(s, slab).idleSpin == s.idleSpin
    ensures m.pool == None ==> |slab| == SLAB_SIZE && NoDup(slab) && forall o :: o in slab ==> o !in s.cells
  {
  }

  lemma FetchRepresents<T, O>(m: Memory<T, O>, s: Exec<T, O>)
    requires Represents(m, s) && s.phase == Fetching
    ensures Represents(m.(op := m.ops), FetchOps(s)) && Took(s, Fetch, FetchOps(s))
    ensures FetchOps(s).phase == Exited(true) <==> m.ops == None && s.stop
  {
    hide Linear, Cycle, NoDup, Conserved, ChainsLinked, HeldClear, TailsMatch, Labelled;
    CursorFacts(m, s);
    StepKeepsInv(s, Fetch);
    ViewFrame(m, s, FetchOps(s));
  }

  lemma WakeRepresents<T, O>(m: Memory<T, O>, s: Exec<T, O>)
    requires Represents(m, s) && s.phase.Parked?
    ensures Inv(s) && Enabled(s, Wake)
    ensures var s' := Step(s, Wake);
      && Took(s, Wake, s') && Represents(m, s')
      && s'.stop == s.stop && s'.idle == s.idle && s'.idleSpin == s.idleSpin && s'.slabs == s.slabs
  {
    hide Linear, Cycle, NoDup, Conserved, ChainsLinked, HeldClear, TailsMatch, Labelled;
    StepKeepsInv(s, Wake);
    ViewFrame(m, s, Step(s, Wake));
    assert m.op == None;
  }

  lemma AbortRepresents<T, O>(m: Memory<T, O>, s: Exec<T, O>)
    requires Represents(m, s) && (s.phase == Fetching || s.phase == Visiting)
    ensures Inv(s) && Enabled(s, Abort)
    ensures var s' := Step(s, Abort);
      && Took(s, Abort, s') && Represents(m.(op := None), s')
      && s'.stop == s.stop && s'.idle == s.idle && s'.idleSpin == s.idleSpin && s'.slabs == s.slabs
  {
    hide Linear, Cycle, NoDup, Conserved, ChainsLinked, HeldClear, TailsMatch, Labelled;
    StepKeepsInv(s, Abort);
    ViewFrame(m, s, Step(s, Abort));
  }

  lemma StartRepresents<T, O>(m: Memory<T, O>, s: Exec<T, O>)
    requires Represents(m, s)
    ensures Inv(s) && Represents(m, Step(s, Start)) && Took(s, Start, Step(s, Start))
    ensures var s' := Step(s, Start);
      s' == s.(stop := s'.stop, phase := s'.phase) && s'.stop == (s.stop && m.ops == None)
  {
    hide Linear, Cycle, NoDup, Conserved, ChainsLinked, HeldClear, TailsMatch, Labelled;
    CursorFacts(m, s);
    StepKeepsInv(s, Start);
    ViewFrame(m, s, Step(s, Start));
  }

  lemma DestroyRepresents<T, O>(m: Memory<T, O>, s: Exec<T, O>)
    requires Represents(m, s)
    ensures Inv(s) && Represents(m, Step(s, Destroy)) && Took(s, Destroy, Step(s, Destroy))
    ensures var s' := Step(s, Destroy); s' == s.(stop := true, phase := s'.phase)
  {
    hide Linear, Cycle, NoDup, Conserved, ChainsLinked, HeldClear, TailsMatch, Labelled;
    CursorFacts(m, s);
    StepKeepsInv(s, Destroy);
    ViewFrame(m, s, Step(s, Destroy));
  }

  lemma ProgressRepresents<T, O>(m: Memory<T, O>, s: Exec<T, O>, outcome: OpState, quiet: bool, left: nat)
    requires Represents(m, s) && s.phase == Visiting && (outcome == OpNone <==> left == 0)
    ensures m.op != None && m.op.value in m.state && s.ring != [] && s.Chain(s.ring[0]) != []
    ensures var s' := Progress(s, left, quiet);
      Took(s, Visit(left, quiet), s') && s'.stop == s.stop && s'.idleSpin == s.idleSpin && s'.slabs == s.slabs
    ensures m.state[m.op.value] == OpNone ==> Represents(m, Progress(s, left, quiet)) && !Progress(s, left, quiet).idle
    ensures m.state[m.op.value] != OpNone ==>
      && Represents(m.(state := m.state[m.op.value := outcome]), Progress(s, left, quiet))
      && Progress(s, left, quiet).idle == (s.idle && quiet)
  {
    hide Linear, Cycle, NoDup, Conserved, ChainsLinked, HeldClear, TailsMatch, Labelled;
    CursorFacts(m, s);
    StepKeepsInv(s, Visit(left, quiet));
    if m.state[m.op.value] == OpNone {
      ViewFrame(m, s, Progress(s, left, quiet));
    } else {
      VisitRepresents(m, s, Progress(s, left, quiet), m.op.value, outcome, left);
    }
  }

  // The operation that is called belongs to the executor, not to a client.
  lemma CursorNotHeld<T, O>(m: Memory<T, O>, s: Exec<T, O>)
    requires Represents(m, s) && s.Active()
    ensures m.op != None && m.op.value in m.state && m.op.value !in s.held
  {
    hide Linear, Cycle, NoDup, ChainsLinked, HeldClear, TailsMatch, Labelled;
    CursorFacts(m, s);
    Separation(s);
    hide Conserved;
    assert Current(s) in s.chains[s.ring[0]];
  }

  // What a client stores in a cell it holds is invisible to the executor, and so is a new null
  // tail cell.
  lemma PrepareRepresents<T, O>(m: Memory<T, O>, s: Exec<T, O>, o: O, t: T, st: OpState)
    requires Represents(m, s) && o in s.held
    ensures o in m.tailOf && o in m.state
    ensures Represents(m.(tailOf := m.tailOf[o := Some(t)], state := m.state[o := st],
                          last := if t in m.last then m.last else m.last[t := None]), s)
  {
    hide Inv, Linear, Cycle, ChainsLinked, HeldClear, RingLinked, Labelled, TailsMatch;
    HeldMember(m, s, o);
    LabelledHeld(m.tailOf, m.state, s, o, t, st);
    TailsNew(m.last, s.chains, t);
    EndsFrame(m, m.(tailOf := m.tailOf[o := Some(t)], state := m.state[o := st],
                    last := if t in m.last then m.last else m.last[t := None]), s);
  }

  lemma LabelledHeld<T, O>(tailOf: map<O, Option<T>>, state: map<O, OpState>, s: Exec<T, O>, o: O, t: T, st: OpState)
    requires Labelled(tailOf, state, s) && forall u :: u in s.chains ==> o !in s.chains[u]
    ensures Labelled(tailOf[o := Some(t)], state[o := st], s)
  {
  }

  lemma TailsNew<T, O>(last: map<T, Option<O>>, chains: map<T, seq<O>>, t: T)
    requires TailsMatch(last, chains)
    ensures TailsMatch(if t in last then last else last[t := None], chains)
  {
  }
}
