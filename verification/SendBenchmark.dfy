// The callback send_benchmark of examples/proxy_send_recv.cc:11-38, its credits, and what it
// means for the executor that runs it.

module SendBenchmark {
  import opened Wrappers
  import opened ProxyModel
  import opened ProxyLinks
  import opened ProxyRuns
  import opened ProxyProgress

  const ROUNDS := 10
  const POLL_BATCH := 32

  // The fields of ProxyArgs that the callback uses, and, of the device, the number of sends that
  // have been posted and whose completion has not been polled.
  datatype Send = Send(state: OpState, idle: bool, iterations: int, credits: int, outstanding: int)

  // What the device may answer to a poll.
  predicate CanPoll(o: Send, completions: nat) {
    completions <= POLL_BATCH && completions <= o.outstanding
  }

  predicate Works(o: Send) {
    o.state != OpNone && o.iterations < ROUNDS
  }

  predicate Polls(o: Send) { Works(o) && o.credits == 0 }

  predicate Posts(o: Send) { Works(o) && o.credits != 0 }

  // One call. `completions` is what ibv_poll_cq returns, if it is called.
  function Call(o: Send, completions: nat): Send {
    var o1 := if o.state == OpReady then o.(state := OpProgress) else o;
    if Polls(o) then o1.(idle := false, iterations := o.iterations + 1, credits := completions,
        outstanding := o.outstanding - completions)
    else
      var o2 := if Posts(o) then o1.(idle := false, iterations := o.iterations + 1, credits := o.credits - 1,
          outstanding := o.outstanding + 1)
                else o1;
      if o2.iterations == ROUNDS then o2.(state := OpNone, idle := false) else o2
  }

  // The fields, and the statements of the source on them.
  class SendArgs {
    var state: OpState
    var idle: bool
    var iterations: int
    var availableWqes: int
    ghost var outstanding: int

    ghost function View(): Send
      reads this
    {
      Send(state, idle, iterations, availableWqes, outstanding)
    }

    // What examples/proxy_send_recv.cc:95-143 and 230 store before the append.
    constructor (credits: nat)
      ensures View() == Send(OpReady, false, 0, credits, 0)
    {
      state, idle, iterations, availableWqes, outstanding := OpReady, false, 0, credits, 0;
    }

    method SendBenchmark(numCompletions: nat)
      requires availableWqes == 0 ==> CanPoll(View(), numCompletions)
      modifies this
      ensures View() == Call(old(View()), numCompletions)
    {
      if state == OpReady {
        state := OpProgress;
      }
      if state == OpProgress && iterations < ROUNDS {
        idle := false;
        iterations := iterations + 1;
        if availableWqes == 0 {
          availableWqes := availableWqes + numCompletions;
          outstanding := outstanding - numCompletions;
          return;
        }
        availableWqes := availableWqes - 1;
        outstanding := outstanding + 1;
      }
      if iterations == ROUNDS {
        state := OpNone;
        idle := false;
      }
    }
  }

  function Fresh(credits: nat): Send { Send(OpReady, false, 0, credits, 0) }

  // ---------------------------------------------------------------- runs of one operation

  // The executor calls the operation while it is not finished; polls[i] is what call i would poll.
  function AfterCalls(o: Send, polls: seq<nat>): Send
    decreases |polls|
  {
    if polls == [] then o else AfterCalls(if o.state == OpNone then o else Call(o, polls[0]), polls[1..])
  }

  predicate Possible(o: Send, polls: seq<nat>)
    decreases |polls|
  {
    polls == [] || ((Polls(o) ==> CanPoll(o, polls[0]))
        && Possible(if o.state == OpNone then o else Call(o, polls[0]), polls[1..]))
  }

  // The calls that post, and those that poll.
  function Posted(o: Send, polls: seq<nat>): nat
    decreases |polls|
  {
    if polls == [] then 0
    else (if Posts(o) then 1 else 0) + Posted(if o.state == OpNone then o else Call(o, polls[0]), polls[1..])
  }

  // An upper bound on the calls still needed.
  function Needed(o: Send): nat {
    if o.state == OpNone then 0 else if o.iterations <= ROUNDS then ROUNDS + 1 - o.iterations else 1
  }

  predicate Sane(o: Send) {
    && o.credits >= 0 && o.outstanding >= 0 && 0 <= o.iterations <= ROUNDS
    && (o.state == OpReady ==> o.iterations == 0)
    && (o.state == OpNone ==> o.iterations == ROUNDS)
  }

  lemma CallKeeps(o: Send, completions: nat)
    requires Sane(o) && o.state != OpNone && (Polls(o) ==> CanPoll(o, completions))
    ensures var o' := Call(o, completions);
      && Sane(o') && o'.credits + o'.outstanding == o.credits + o.outstanding
      && Needed(o') < Needed(o)
      && o'.iterations == (if Works(o) then o.iterations + 1 else o.iterations)
      && (o'.state == OpNone <==> o'.iterations == ROUNDS && !Polls(o))
  {
  }

  // Credits are never negative and, with the posts that are still out, never get lost; every call
  // brings the end nearer.
  lemma {:induction false} CreditsConserved(o: Send, polls: seq<nat>)
    requires Sane(o) && Possible(o, polls)
    ensures var e := AfterCalls(o, polls);
      && Sane(e) && e.credits >= 0 && e.credits + e.outstanding == o.credits + o.outstanding
      && (e.state != OpNone ==> Needed(e) + |polls| <= Needed(o))
    decreases |polls|
  {
    if polls != [] {
      if o.state != OpNone {
        CallKeeps(o, polls[0]);
        CreditsConserved(Call(o, polls[0]), polls[1..]);
      } else {
        CreditsConserved(o, polls[1..]);
      }
    }
  }

  // Call number k is the k-th, as long as there are no more than ten.
  lemma {:induction false} Counts(o: Send, polls: seq<nat>)
    requires Sane(o) && o.state != OpNone && Possible(o, polls) && o.iterations + |polls| <= ROUNDS
    ensures var e := AfterCalls(o, polls);
      e.iterations == o.iterations + |polls| && (e.iterations < ROUNDS ==> e.state != OpNone)
    decreases |polls|
  {
    if polls != [] {
      CallKeeps(o, polls[0]);
      if |polls| == 1 {
        assert polls[1..] == [];
      } else {
        Counts(Call(o, polls[0]), polls[1..]);
      }
    }
  }

  lemma {:induction false} AfterCallsConcat(o: Send, a: seq<nat>, b: seq<nat>)
    ensures AfterCalls(o, a + b) == AfterCalls(AfterCalls(o, a), b)
    ensures Possible(o, a + b) <==> Possible(o, a) && Possible(AfterCalls(o, a), b)
    decreases |a|
  {
    if a == [] {
      assert a + b == b;
    } else {
      assert (a + b)[1..] == a[1..] + b;
      AfterCallsConcat(if o.state == OpNone then o else Call(o, a[0]), a[1..], b);
    }
  }

  // From Ready with iterations 0 the operation is finished after ten calls exactly if the tenth
  // one posts, and otherwise after eleven, whatever the device answers.
  lemma Finishes(credits: nat, polls: seq<nat>)
    requires Possible(Fresh(credits), polls)
    ensures |polls| < 10 ==> AfterCalls(Fresh(credits), polls).state != OpNone
    ensures |polls| == 10 ==>
      (AfterCalls(Fresh(credits), polls).state == OpNone <==> Posts(AfterCalls(Fresh(credits), polls[..9])))
    ensures |polls| > 10 ==> AfterCalls(Fresh(credits), polls).state == OpNone
  {
    var o := Fresh(credits);
    if |polls| < ROUNDS {
      Counts(o, polls);
    } else if |polls| == ROUNDS {
      var nine, last := polls[..ROUNDS - 1], polls[ROUNDS - 1..];
      assert polls == nine + last && last == [polls[ROUNDS - 1]] && last[1..] == [];
      AfterCallsConcat(o, nine, last);
      Counts(o, nine);
      CreditsConserved(o, nine);
      var e := AfterCalls(o, nine);
      assert AfterCalls(e, last) == AfterCalls(Call(e, last[0]), last[1..]);
      CallKeeps(e, last[0]);
    } else {
      CreditsConserved(o, polls);
    }
  }

  // The ten working calls are posts and polls, and all of them post exactly if there were ten
  // credits to begin with.
  lemma {:induction false} PostsFromCredits(o: Send, polls: seq<nat>)
    requires Sane(o) && o.state != OpNone && Possible(o, polls) && o.iterations + |polls| == 10
    ensures Posted(o, polls) <= |polls|
    ensures Posted(o, polls) == |polls| <==> o.credits >= |polls|
    decreases |polls|
  {
    if polls != [] {
      CallKeeps(o, polls[0]);
      if |polls| == 1 {
        assert polls[1..] == [];
      } else {
        PostsFromCredits(Call(o, polls[0]), polls[1..]);
      }
    }
  }

  // ---------------------------------------------------------------- the ledger of credits

  // The calls that poll, and what the device has answered to them in all.
  function PollCalls(o: Send, polls: seq<nat>): nat
    decreases |polls|
  {
    if polls == [] then 0
    else (if Polls(o) then 1 else 0) + PollCalls(if o.state == OpNone then o else Call(o, polls[0]), polls[1..])
  }

  function Polled(o: Send, polls: seq<nat>): nat
    decreases |polls|
  {
    if polls == [] then 0
    else (if Polls(o) then polls[0] else 0) + Polled(if o.state == OpNone then o else Call(o, polls[0]), polls[1..])
  }

  lemma CallLedger(o: Send, completions: nat)
    requires Sane(o) && o.state != OpNone && (Polls(o) ==> CanPoll(o, completions))
    ensures var o', post, poll := Call(o, completions), if Posts(o) then 1 else 0, if Polls(o) then completions else 0;
      && o'.credits == o.credits - post + poll && o'.outstanding == o.outstanding + post - poll
      && o'.iterations == o.iterations + post + (if Polls(o) then 1 else 0)
      && poll <= 32 && !(Posts(o) && Polls(o))
  {
  }

  // What a send may use is what it started with, less its posts, plus what its polls have brought
  // back; each poll brings at most 32, and posts and polls are all that counts as an iteration.
  lemma {:induction false} CreditLedger(o: Send, polls: seq<nat>)
    requires Sane(o) && Possible(o, polls)
    ensures var e := AfterCalls(o, polls);
      && e.credits == o.credits - Posted(o, polls) + Polled(o, polls)
      && e.outstanding == o.outstanding + Posted(o, polls) - Polled(o, polls)
      && e.iterations == o.iterations + Posted(o, polls) + PollCalls(o, polls)
      && Polled(o, polls) <= 32 * PollCalls(o, polls)
    decreases |polls|
  {
    if polls != [] {
      if o.state != OpNone {
        CallKeeps(o, polls[0]);
        CallLedger(o, polls[0]);
        hide Sane, Call, Posts, Polls, CanPoll;
        CreditLedger(Call(o, polls[0]), polls[1..]);
      } else {
        CreditLedger(o, polls[1..]);
      }
    }
  }

  // So ten calls or more make ten iterations, and the posts among them are the initial credits and
  // the polled completions that are not left over.
  lemma PostsInTenCalls(credits: nat, polls: seq<nat>)
    requires Possible(Fresh(credits), polls) && |polls| >= 10
    ensures var o, e := Fresh(credits), AfterCalls(Fresh(credits), polls);
      && Posted(o, polls) + PollCalls(o, polls) == e.iterations == 10
      && Posted(o, polls) == credits + Polled(o, polls) - e.credits
      && Posted(o, polls) == Polled(o, polls) + e.outstanding
  {
    var o := Fresh(credits);
    CreditLedger(o, polls);
    if |polls| == 10 {
      Counts(o, polls);
    } else {
      CreditsConserved(o, polls);
    }
  }

  // Every poll finds all that is outstanding completed.
  predicate Eager(o: Send, polls: seq<nat>)
    decreases |polls|
  {
    polls == [] || ((Polls(o) ==> polls[0] == o.outstanding)
        && Eager(if o.state == OpNone then o else Call(o, polls[0]), polls[1..]))
  }

  lemma PlusOne(a: nat, d: nat)
    requires d > 0
    ensures (a + d) / d == a / d + 1
  {
    var q, r := a / d, a % d;
    assert a + d == d * (q + 1) + r;
    Quotient(a + d, d, q + 1, r);
  }

  lemma Quotient(a: nat, d: nat, q: nat, r: nat)
    requires d > 0 && a == d * q + r && r < d
    ensures a / d == q
  {
    var p := a / d;
    assert a == d * p + a % d;
    assert (p < q ==> d * (p + 1) <= d * q) && (p > q ==> d * (q + 1) <= d * p);
  }

  // Against such a device one poll follows every `all` posts.
  lemma {:induction false} EagerPolls(o: Send, polls: seq<nat>, all: nat)
    requires Sane(o) && o.state != OpNone && Possible(o, polls) && o.iterations + |polls| <= 10
    requires o.credits + o.outstanding == all && Eager(o, polls)
    ensures PollCalls(o, polls) == (|polls| + o.outstanding) / (all + 1)
    decreases |polls|
  {
    if polls == [] {
      Quotient(o.outstanding, all + 1, 0, o.outstanding);
    } else {
      var o', rest := Call(o, polls[0]), polls[1..];
      CallKeeps(o, polls[0]);
      CallLedger(o, polls[0]);
      if Polls(o) {
        PlusOne(|rest|, all + 1);
      }
      if rest == [] {
        Quotient(o'.outstanding, all + 1, 0, o'.outstanding);
      } else {
        EagerPolls(o', rest, all);
      }
    }
  }

  // With a device that has always completed everything, a fresh send posts in ten calls
  // 10 - 10 / (credits + 1) times.
  lemma EagerPosts(credits: nat, polls: seq<nat>)
    requires |polls| == 10 && Eager(Fresh(credits), polls) && Possible(Fresh(credits), polls)
    ensures Posted(Fresh(credits), polls) == 10 - 10 / (credits + 1)
  {
    EagerPolls(Fresh(credits), polls, credits);
    PostsInTenCalls(credits, polls);
  }

  // ---------------------------------------------------------------- sends under the executor

  // The callback keeps the contract of the executor: the calls still needed get fewer, none are
  // needed exactly when the operation is finished, and it never reports itself idle.
  lemma MeetsContract(o: Send, completions: nat)
    requires Sane(o) && o.state != OpNone && (Polls(o) ==> CanPoll(o, completions))
    ensures Needed(o) > 0 && Needed(Call(o, completions)) < Needed(o)
    ensures Needed(Call(o, completions)) == 0 <==> Call(o, completions).state == OpNone
    ensures !Call(o, completions).idle
  {
    CallKeeps(o, completions);
  }

  const FRESH_CALLS := 11

  // All queued operations need the eleven calls of a fresh send.
  ghost predicate Uniform<T, O>(s: Exec<T, O>) {
    forall t, o {:trigger o in s.chains[t]} :: t in s.chains && o in s.chains[t] ==> s.Left(o) == FRESH_CALLS
  }

  lemma {:induction false} UniformChain<O>(chain: seq<O>, todo: map<O, nat>)
    requires forall o :: o in chain ==> (if o in todo then todo[o] else 0) == FRESH_CALLS
    ensures ChainLoad(chain, todo) == (FRESH_CALLS + 1) * |chain|
  {
    if chain != [] {
      UniformChain(chain[1..], todo);
    }
  }

  ghost predicate UniformChains<T, O>(ring: seq<T>, chains: map<T, seq<O>>, todo: map<O, nat>) {
    forall t :: t in ring ==> t in chains && forall o :: o in chains[t] ==>
        (if o in todo then todo[o] else 0) == FRESH_CALLS
  }

  lemma {:induction false} UniformLoad<T, O>(ring: seq<T>, chains: map<T, seq<O>>, todo: map<O, nat>)
    requires UniformChains(ring, chains, todo)
    ensures Load(ring, chains, todo) == (FRESH_CALLS + 1) * |Queued(ring, chains)|
  {
    if ring != [] {
      UniformChain(chains[ring[0]], todo);
      UniformLoad(ring[1..], chains, todo);
      hide UniformChains, ChainLoad;
    }
  }

  lemma FreshLoad<T, O>(s: Exec<T, O>)
    requires Shape(s) && Uniform(s)
    ensures TotalLoad(s) == 12 * |Queued(s.ring, s.chains)|
    ensures s.ring != [] ==> s.Chain(s.ring[0]) != [] && s.Left(Current(s)) > 0
  {
    hide Load, Queued;
    assert UniformChains(s.ring, s.chains, s.todo);
    UniformLoad(s.ring, s.chains, s.todo);
    if s.ring != [] {
      assert Current(s) in s.chains[s.ring[0]];
    }
  }

  // ---------------------------------------------------------------- runs of sends

  // The executor calls the callback of an operation that is not finished.
  ghost predicate Calling<T, O>(s: Exec<T, O>, l: Label<T, O>) {
    Inv(s) && Enabled(s, l) && l.Visit? && s.Left(Current(s)) > 0
  }

  // The fields with which the callback starts: the thread has cleared op->idle.
  function Entered(o: Send): Send { o.(idle := false) }

  // The step is one in which every operation is a send. `input` is what comes from outside: the
  // credits with which an appended send starts, or what the device answers to a poll.
  ghost predicate BySend<T, O>(s: Exec<T, O>, sends: map<O, Send>, l: Label<T, O>, input: nat) {
    && (l.Append? ==> l.work == Needed(Fresh(input)))
    && (Calling(s, l) ==>
          Current(s) in sends &&
          var o := Entered(sends[Current(s)]);
          && (Polls(o) ==> CanPoll(o, input))
          && l.left == Needed(Call(o, input)) && l.quiet == Call(o, input).idle)
  }

  // The fields of the sends after the step.
  ghost function SendsNext<T, O>(s: Exec<T, O>, sends: map<O, Send>, l: Label<T, O>, input: nat): map<O, Send> {
    if l.Append? then sends[l.op := Fresh(input)]
    else if Calling(s, l) && Current(s) in sends then sends[Current(s) := Call(Entered(sends[Current(s)]), input)]
    else sends
  }

  ghost predicate SendRun<T, O>(s: Exec<T, O>, sends: map<O, Send>, ls: seq<Label<T, O>>, inputs: seq<nat>)
    decreases |ls|
  {
    && |inputs| == |ls|
    && (ls == [] || (BySend(s, sends, ls[0], inputs[0])
                     && SendRun(Next(s, ls[0]), SendsNext(s, sends, ls[0], inputs[0]), ls[1..], inputs[1..])))
  }

  ghost function SendsAfter<T, O>(s: Exec<T, O>, sends: map<O, Send>, ls: seq<Label<T, O>>, inputs: seq<nat>)
      : map<O, Send>
    requires |inputs| == |ls|
    decreases |ls|
  {
    if ls == [] then sends else SendsAfter(Next(s, ls[0]), SendsNext(s, sends, ls[0], inputs[0]), ls[1..], inputs[1..])
  }

  // What the executor counts as work left is what the fields of the queued sends say.
  ghost predicate Tracks<T, O>(s: Exec<T, O>, sends: map<O, Send>) {
    forall t, o {:trigger o in s.chains[t]} :: t in s.chains && o in s.chains[t] ==>
      o in sends && Sane(sends[o]) && s.Left(o) == Needed(sends[o])
  }

  lemma TracksCall<T, O>(s: Exec<T, O>, sends: map<O, Send>, l: Label<T, O>, input: nat)
    requires Inv(s) && Calling(s, l) && Tracks(s, sends) && BySend(s, sends, l, input)
    ensures Tracks(Next(s, l), SendsNext(s, sends, l, input)) && l.left < s.Left(Current(s))
  {
    hide Conserved, NoDup, Call, Polls;
    var o := Current(s);
    assert o in s.chains[s.ring[0]];
    CallKeeps(Entered(sends[o]), input);
  }

  lemma HeldNotQueued<T, O>(s: Exec<T, O>, o: O)
    requires Inv(s) && o in s.held
    ensures forall t :: t in s.chains ==> o !in s.chains[t]
  {
    Separation(s);
  }

  lemma TracksOne<T, O>(s: Exec<T, O>, sends: map<O, Send>, u: T, p: O, input: nat, t: T, o: O)
    requires Tracks(s, sends) && forall v :: v in s.chains ==> p !in s.chains[v]
    requires var r := Enqueue(s, u, p, Needed(Fresh(input))); t in r.chains && o in r.chains[t]
    ensures var r, all := Enqueue(s, u, p, Needed(Fresh(input))), sends[p := Fresh(input)];
      o in all && Sane(all[o]) && r.Left(o) == Needed(all[o])
  {
    hide InsertAfter;
    if o != p {
      assert t in s.chains && o in s.chains[t];
    }
  }

  lemma TracksAppend<T, O>(s: Exec<T, O>, sends: map<O, Send>, l: Label<T, O>, input: nat)
    requires Inv(s) && Enabled(s, l) && l.Append? && Tracks(s, sends) && BySend(s, sends, l, input)
    ensures Tracks(Next(s, l), SendsNext(s, sends, l, input))
  {
    HeldNotQueued(s, l.op);
    hide Inv, Enqueue, Needed, Sane;
    var r, all := Enqueue(s, l.tail, l.op, l.work), sends[l.op := Fresh(input)];
    assert r == Next(s, l) && all == SendsNext(s, sends, l, input);
    hide Tracks, SendsNext, Calling, Next;
    assert Tracks(r, all) by {
      forall t, o | t in r.chains && o in r.chains[t] ensures o in all && Sane(all[o]) && r.Left(o) == Needed(all[o]) {
        TracksOne(s, sends, l.tail, l.op, input, t, o);
      }
      TracksIs(r, all);
    }
  }

  lemma TracksIs<T, O>(s: Exec<T, O>, sends: map<O, Send>)
    requires forall t, o {:trigger o in s.chains[t]} :: t in s.chains && o in s.chains[t] ==>
      o in sends && Sane(sends[o]) && s.Left(o) == Needed(sends[o])
    ensures Tracks(s, sends)
  {
  }

  lemma TracksSplice<T, O>(s: Exec<T, O>, sends: map<O, Send>)
    requires Inv(s) && s.phase == Splicing && Tracks(s, sends)
    ensures Tracks(SpliceNext(s), sends)
  {
    hide Conserved, NoDup, SpliceRing;
    var r := SpliceNext(s);
    forall t, o | t in r.chains && o in r.chains[t]
      ensures o in sends && Sane(sends[o]) && r.Left(o) == Needed(sends[o])
    {
      assert r.chains[t] == s.chains[t] || r.chains[t] == s.chains[t][1..];
      assert o in s.chains[t];
    }
  }

  lemma TracksStep<T, O>(s: Exec<T, O>, sends: map<O, Send>, l: Label<T, O>, input: nat)
    requires Inv(s) && Enabled(s, l) && Tracks(s, sends) && BySend(s, sends, l, input)
    ensures Inv(Next(s, l)) && Tracks(Next(s, l), SendsNext(s, sends, l, input))
    ensures !l.Append? ==> Drains(s, l)
  {
    hide Inv, Tracks, BySend, Sane;
    NextKeepsInv(s, l);
    if Calling(s, l) {
      TracksCall(s, sends, l, input);
    } else if l.Append? {
      TracksAppend(s, sends, l, input);
    } else if l.Splice? {
      TracksSplice(s, sends);
    } else if l.Visit? {
      IdleVisit(s, sends, l);
    } else {
      OtherSteps(s, l);
      SameTracks(s, Next(s, l), sends);
    }
  }

  lemma IdleVisit<T, O>(s: Exec<T, O>, sends: map<O, Send>, l: Label<T, O>)
    requires Inv(s) && Enabled(s, l) && l.Visit? && !Calling(s, l) && Tracks(s, sends)
    ensures Tracks(Next(s, l), sends) && Drains(s, l)
  {
    hide Conserved, NoDup;
  }

  lemma SameTracks<T, O>(s: Exec<T, O>, r: Exec<T, O>, sends: map<O, Send>)
    requires Tracks(s, sends) && r.chains == s.chains && r.todo == s.todo
    ensures Tracks(r, sends)
  {
  }

  lemma {:induction false} SendsKeepTrack<T, O>(s: Exec<T, O>, sends: map<O, Send>, ls: seq<Label<T, O>>,
      inputs: seq<nat>)
    requires Inv(s) && Legal(s, ls) && Tracks(s, sends) && SendRun(s, sends, ls, inputs)
    ensures Inv(Run(s, ls)) && Tracks(Run(s, ls), SendsAfter(s, sends, ls, inputs))
    ensures NoAppends(ls) ==> Draining(s, ls)
    decreases |ls|
  {
    hide Inv, Enabled, Next, Tracks, BySend, SendsNext, Drains;
    if ls != [] {
      TracksStep(s, sends, ls[0], inputs[0]);
      SendsKeepTrack(Next(s, ls[0]), SendsNext(s, sends, ls[0], inputs[0]), ls[1..], inputs[1..]);
    }
  }

  ghost predicate NoAppends<T, O>(ls: seq<Label<T, O>>) {
    forall i :: 0 <= i < |ls| ==> !ls[i].Append?
  }

  // No queued send has been called yet.
  ghost predicate AllFresh<T, O>(s: Exec<T, O>, sends: map<O, Send>) {
    forall t, o {:trigger o in s.chains[t]} :: t in s.chains && o in s.chains[t] ==>
        o in sends && sends[o].state == OpReady
  }

  lemma FreshUniform<T, O>(s: Exec<T, O>, sends: map<O, Send>)
    requires Tracks(s, sends) && AllFresh(s, sends)
    ensures Uniform(s)
  {
  }

  // From an empty handler, in any run in which every operation is a send: if at some point k sends
  // are queued that have not been called yet, and there are no further appends, the thread is done
  // with all of them within 24 k iterations, however they are spread over the peers, whatever
  // credits they start with and whatever the device answers.
  lemma SendsDrain<T, O>(pre: seq<Label<T, O>>, in1: seq<nat>, ls: seq<Label<T, O>>, in2: seq<nat>)
    requires Legal(Init(), pre) && SendRun(Init(), map[], pre, in1)
    requires var s, sends := Run(Init<T, O>(), pre), SendsAfter(Init<T, O>(), map[], pre, in1);
      && AllFresh(s, sends) && s.phase != Splicing
      && Legal(s, ls) && SendRun(s, sends, ls, in2) && NoAppends(ls)
    ensures var s := Run(Init<T, O>(), pre);
      var k := |Queued(s.ring, s.chains)|;
      && Iterations(ls) <= 24 * k
      && (Iterations(ls) == 24 * k ==> Run(s, ls).ring == [] || Run(s, ls).phase.Exited?)
  {
    assert |in1| == |pre| && |in2| == |ls|;
    hide Conserved, NoDup, Run, Legal, Draining, Uniform, TotalLoad, Iterations, Queued, SendRun, SendsAfter, AllFresh;
    InitInv<T, O>();
    assert Tracks(Init<T, O>(), map[]);
    SendsKeepTrack(Init<T, O>(), map[], pre, in1);
    var s, sends := Run(Init<T, O>(), pre), SendsAfter(Init<T, O>(), map[], pre, in1);
    SendsKeepTrack(s, sends, ls, in2);
    FreshUniform(s, sends);
    hide Tracks;
    FreshLoad(s);
    DrainBound(s, ls);
    assert Potential(s) <= 2 * TotalLoad(s);
  }
}
