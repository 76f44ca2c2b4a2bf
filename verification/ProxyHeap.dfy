// The pointer code of csrc/proxy.cc. The memory is explicit: a cell is an address, and each
// pointer field of ProxyArgs is a map from addresses that the statements below overwrite one
// entry at a time, so two names for one cell share its fields as they do in the source. Every
// method is one atomic step (a lock section, or the callback run without the lock) and is
// proved to perform exactly the corresponding step of ProxyModel on the ghost field `view`.

module ProxyHeap {
  import opened ProxyModel
  import opened Wrappers
  import opened ProxyLinks

  // The handler, the cells it owns, and the locals op, idle and idleSpin of its thread.
  class ProxyHandler<T(==), O(==)> {
    // the fields of the cells
    var next: map<O, Option<O>>
    var nextPeer: map<O, Option<O>>
    var proxyTail: map<O, Option<T>>
    var state: map<O, OpState>
    // *tail for the tail cells in use
    var tailCell: map<T, Option<O>>
    var ops: Option<O>
    var stop: bool
    var pool: Option<O>
    var pools: seq<seq<O>>
    var op: Option<O>
    var idle: bool
    var idleSpin: nat
    ghost var view: Exec<T, O>

    // The links as one value.
    ghost function Mem(): Memory<T, O>
      reads this
    {
      Memory(next, nextPeer, proxyTail, state, tailCell, ops, pool, op)
    }

    ghost predicate Valid()
      reads this
    {
      && Represents(Mem(), view)
      && stop == view.stop && idle == view.idle && idleSpin == view.idleSpin && |pools| == view.slabs
    }

    // A handler of zeros after ProxyCreate (csrc/proxy.cc:105-114), with the thread about to look
    // for work.
    constructor ()
      ensures Valid() && view == Init()
    {
      next, nextPeer, proxyTail, state, tailCell := map[], map[], map[], map[], map[];
      ops, pool, op, pools := None, None, None, [];
      stop, idle, idleSpin := false, true, 0;
      view := Init();
      new;
      InitRepresents<T, O>(map[]);
    }

    // What a client does to a cell between allocateArgs and ProxyArgsAppend
    // (examples/proxy_send_recv.cc:95-98).
    method Prepare(args: O, tail: T, st: OpState)
      requires Valid() && args in view.held
      modifies this`proxyTail, this`state, this`tailCell
      ensures Valid()
      ensures proxyTail == old(proxyTail)[args := Some(tail)] && state == old(state)[args := st]
      ensures tailCell == if tail in old(tailCell) then old(tailCell) else old(tailCell)[tail := None]
    {
      hide Represents;
      PrepareRepresents(Mem(), view, args, tail, st);
      if tail !in tailCell {
        tailCell := tailCell[tail := None];
      }
      state, proxyTail := state[args := st], proxyTail[args := Some(tail)];
    }

    // ProxyArgsAppend (csrc/proxy.cc:125-141).
    method ProxyArgsAppend(args: O, ghost work: nat)
      requires Valid() && args in view.held && args in proxyTail && args in state
      requires proxyTail[args] != None && proxyTail[args].value in tailCell
      requires state[args] == OpNone <==> work == 0
      modifies this`ops, this`next, this`nextPeer, this`tailCell, this`view
      ensures Valid()
      ensures Took(old(view), Append(proxyTail[args].value, args, work), view)
      ensures tailCell.Keys == old(tailCell.Keys)
    {
      hide Represents, Enqueue, Took, Inv;
      ghost var m, v := Mem(), view;
      var tail := proxyTail[args].value;
      TailFacts(m, v, tail);
      OpsFacts(m, v);
      EnqueueTook(m, v, tail, args, work);
      view := Enqueue(v, tail, args, work);
      if tailCell[tail] == None {
        if ops == None {
          AppendFirst(m, v, tail, args, work);
          next := next[args := Some(args)];
          ops := Some(args);
        } else {
          AppendToRing(m, v, tail, args, work);
          next := next[args := next[ops.value]];
          next := next[ops.value := Some(args)];
        }
        tailCell := tailCell[tail := Some(args)];
      } else {
        AppendToQueue(m, v, tail, args, work);
        nextPeer := nextPeer[tailCell[tail].value := Some(args)];
        tailCell := tailCell[tail := Some(args)];
      }
    }

    // csrc/proxy.cc:57-82: recycle the operation after the cursor if it is finished, and advance.
    method Advance()
      requires Represents(Mem(), view) && view.phase == Splicing
      modifies this`ops, this`op, this`pool, this`next, this`tailCell
      ensures Represents(Mem(), SpliceNext(view))
      ensures tailCell.Keys == old(tailCell.Keys)
    {
      hide Represents, SpliceNext;
      ghost var m := Mem();
      ghost var m';
      SpliceFacts(m, view);
      CursorAlone(m, view);
      var cur := op.value;
      var nxt := next[cur];
      if state[nxt.value] == OpNone {
        var freeOp := nxt.value;
        if nextPeer[freeOp] != None {
          nxt := nextPeer[freeOp];
          if cur != freeOp {
            SpliceReplaceMany(m, view, cur, freeOp, nxt.value);
            m' := m.(next := m.next[nxt.value := m.next[freeOp]][cur := nxt][freeOp := m.pool], pool := Some(freeOp),
                     op := nxt,
                     ops := if m.ops == Some(freeOp) then nxt else m.ops);
            next := next[nxt.value := next[freeOp]];
            next := next[cur := nxt];
          } else {
            SpliceReplaceOne(m, view, freeOp, nxt.value);
            m' := m.(next := m.next[nxt.value := nxt][freeOp := m.pool], pool := Some(freeOp), op := nxt, ops := nxt);
            next := next[nxt.value := nxt];
          }
        } else {
          tailCell := tailCell[proxyTail[freeOp].value := None];
          if cur != freeOp {
            SpliceUnlinkMany(m, view, cur, freeOp);
            nxt := next[freeOp];
            next := next[cur := nxt];
            m' := m.(next := next[freeOp := pool], pool := Some(freeOp), op := nxt, last := tailCell,
                     ops := if m.ops == Some(freeOp) then nxt else m.ops);
          } else {
            SpliceUnlinkLast(m, view, freeOp);
            nxt := None;
            m' := m.(next := m.next[freeOp := m.pool], pool := Some(freeOp), op := None, last := tailCell, ops := None);
          }
        }
        if ops == Some(freeOp) {
          ops := nxt;
        }
        next := next[freeOp := pool];
        pool := Some(freeOp);
      } else {
        SpliceNothing(m, view);
        m' := m.(op := nxt);
      }
      op := nxt;
      assert Mem() == m';
    }

    // The lock section of persistentThread after the callback (csrc/proxy.cc:54-92).
    method SpliceAndAdvance() returns (yielded: bool)
      requires Valid() && view.phase == Splicing
      modifies this`ops, this`op, this`pool, this`next, this`tailCell, this`idle, this`idleSpin, this`view
      ensures Valid()
      ensures Took(old(view), Splice, view)
      ensures yielded <==> AboutToYield(old(view))
      ensures tailCell.Keys == old(tailCell.Keys)
    {
      hide Represents, SpliceNext, Took, AboutToYield, Arrives;
      SpliceTook(Mem(), view);
      if !idle {
        idleSpin := 0;
      }
      Advance();
      view := SpliceNext(view);
      ArrivalTest(Mem(), view);
      yielded := false;
      if op == ops {
        if idle {
          idleSpin := idleSpin + 1;
          if idleSpin == SPIN_LIMIT {
            yielded := true;
            idleSpin := 0;
          }
        }
        idle := true;
      }
    }

    // The lock section of persistentThread that looks for work (csrc/proxy.cc:36-47). Without any
    // it returns through `stop`, or waits on the condition variable.
    method FetchOrWait() returns (leave: bool)
      requires Valid() && view.phase == Fetching
      modifies this`op, this`view
      ensures Valid()
      ensures Took(old(view), Fetch, view)
      ensures leave <==> view.phase == Exited(true)
    {
      hide Represents, Took;
      FetchRepresents(Mem(), view);
      op := ops;
      leave := op == None && stop;
      view := FetchOps(view);
    }

    // The return of pthread_cond_wait (csrc/proxy.cc:44-48): op is still null, so the loop goes on
    // to look for work again.
    method WakeUp()
      requires Valid() && view.phase.Parked?
      modifies this`view
      ensures Valid()
      ensures Took(old(view), Wake, view)
    {
      hide Represents, Took, Inv, Step;
      WakeRepresents(Mem(), view);
      view := Step(view, Wake);
    }

    // The thread finds the abort flag set and returns (csrc/proxy.cc:34-35); its op goes with it.
    method LeaveOnAbort()
      requires Valid() && (view.phase == Fetching || view.phase == Visiting)
      modifies this`op, this`view
      ensures Valid()
      ensures Took(old(view), Abort, view)
    {
      hide Represents, Took, Inv, Step;
      AbortRepresents(Mem(), view);
      view := Step(view, Abort);
      op := None;
    }

    // The callback, without the lock (csrc/proxy.cc:49-53). It may store any state in its own
    // operation, and report itself idle or not; a finished operation is not called again.
    method CallProgress(outcome: OpState, quiet: bool, ghost left: nat)
      requires Valid() && view.phase == Visiting
      requires outcome == OpNone <==> left == 0
      modifies this`state, this`idle, this`view
      ensures Valid()
      ensures Took(old(view), Visit(left, quiet), view)
      ensures op != None && op.value in old(state) && op.value !in old(view.held)
      ensures state == if old(state)[op.value] == OpNone then old(state) else old(state)[op.value := outcome]
    {
      hide Represents, Took, Progress;
      CursorNotHeld(Mem(), view);
      ProgressRepresents(Mem(), view, outcome, quiet, left);
      view := Progress(view, left, quiet);
      var opIdle := false;
      if state[op.value] != OpNone {
        state := state[op.value := outcome];
        opIdle := quiet;
      }
      idle := idle && opIdle;
    }

    // ProxyStart (csrc/proxy.cc:183-190).
    method ProxyStart()
      requires Valid()
      modifies this`stop, this`view
      ensures Valid()
      ensures Took(old(view), Start, view)
    {
      hide Represents, Took, Inv, Step;
      StartRepresents(Mem(), view);
      view := Step(view, Start);
      if ops != None {
        stop := false;
      }
    }

    // ProxyDestroy up to the join (csrc/proxy.cc:201-204).
    method ProxyDestroy()
      requires Valid()
      modifies this`stop, this`view
      ensures Valid()
      ensures Took(old(view), Destroy, view)
    {
      hide Represents, Took, Inv, Step;
      DestroyRepresents(Mem(), view);
      view := Step(view, Destroy);
      stop := true;
    }

    // allocateArgs (csrc/proxy.cc:153-173). `calloc` holds the addresses of the zeroed slab that
    // the allocator returns when it is asked for one.
    method AllocateArgs(calloc: seq<O>) returns (elem: O)
      requires Valid() && (pool == None ==> FreshSlab(view, calloc))
      modifies this`next, this`nextPeer, this`proxyTail, this`state, this`pool, this`pools, this`view
      ensures Valid()
      ensures Took(old(view), Alloc(calloc), view)
      ensures elem == Stock(old(view), calloc)[0]
      ensures elem in view.held && elem in next && next[elem] == None && elem in nextPeer && nextPeer[elem] == None
      ensures Extends(old(proxyTail), proxyTail) && Extends(old(state), state)
    {
      hide Represents, Took, Refill, Allocate, FreshSlab, NoDup, Stock, Extends, Inv;
      AllocTook(Mem(), view, calloc);
      ghost var v := view;
      if pool == None {
        AddSlab(calloc);
      } else {
        ExtendsSelf(proxyTail);
        ExtendsSelf(state);
      }
      elem := TakeFree(Refill(v, calloc));
      view := Allocate(v, calloc);
    }

    // csrc/proxy.cc:168-171.
    method TakeFree(ghost s: Exec<T, O>) returns (elem: O)
      requires Represents(Mem(), s) && pool != None
      modifies this`next, this`nextPeer, this`pool
      ensures s.free != [] && elem == s.free[0]
      ensures elem in next && next[elem] == None && elem in nextPeer && nextPeer[elem] == None
      ensures Represents(Mem(), s.(free := s.free[1..], held := s.held + {elem}))
    {
      hide Represents;
      elem := pool.value;
      TakeRepresents(Mem(), s, elem);
      pool := next[elem];
      next, nextPeer := next[elem := None], nextPeer[elem := None];
    }

    // csrc/proxy.cc:156-167.
    method AddSlab(calloc: seq<O>)
      requires Represents(Mem(), view) && pool == None && FreshSlab(view, calloc)
      modifies this`next, this`nextPeer, this`proxyTail, this`state, this`pool, this`pools
      ensures Represents(Mem(), Refill(view, calloc))
      ensures pools == [calloc] + old(pools) && pool != None
      ensures Extends(old(proxyTail), proxyTail) && Extends(old(state), state)
    {
      hide Represents, Refill, Linear, Extends, Zeroed, FreshSlab, NoDup, Elems;
      ghost var m, v := Mem(), view;
      AllocTook(m, v, calloc);
      ZeroedExtends(proxyTail, calloc, None);
      ZeroedExtends(state, calloc, OpNone);
      CallocSlab(calloc);
      pool, pools := Some(calloc[0]), [calloc] + pools;
      RefillZeroed(m, v, calloc, next);
    }

    // csrc/proxy.cc:157-163: calloc clears the cells of a slab; then they are linked in order.
    method CallocSlab(slab: seq<O>)
      requires |slab| == SLAB_SIZE && NoDup(slab) && forall c :: c in slab ==> c !in next
      modifies this`next, this`nextPeer, this`proxyTail, this`state
      ensures next.Keys == old(next.Keys) + Elems(slab)
      ensures Extends(old(next), next) && Linear(slab, next)
      ensures nextPeer == Zeroed(old(nextPeer), slab, None) && proxyTail == Zeroed(old(proxyTail), slab, None)
      ensures state == Zeroed(old(state), slab, OpNone)
    {
      hide Zeroed, Linear, Extends, NoDup, Elems;
      nextPeer, proxyTail, state := Zeroed(nextPeer, slab, None), Zeroed(proxyTail, slab, None),
          Zeroed(state, slab, OpNone);
      LinkSlab(slab);
    }

    method LinkSlab(slab: seq<O>)
      requires |slab| == SLAB_SIZE && NoDup(slab) && forall c :: c in slab ==> c !in next
      modifies this`next
      ensures next.Keys == old(next.Keys) + Elems(slab)
      ensures Extends(old(next), next) && Linear(slab, next)
    {
      next := Zeroed(next, slab, None);
      for i := 0 to SLAB_SIZE
        invariant next.Keys == old(next.Keys) + Elems(slab)
        invariant Extends(old(next), next)
        invariant forall k :: 0 <= k < |slab| ==> next[slab[k]] == if k < i then After(slab, k, None) else None
      {
        if i + 1 < SLAB_SIZE {
          next := next[slab[i] := Some(slab[i + 1])];
        }
      }
    }
  }
}
