/** The completion notification loop (cq_thread and cq_event_handler): wait for an event,
    re-arm the queue, drain it in batches of 16 within a budget of 64. */
module Notify {
  import opened System
  import opened Invariant

  // ---- the loop against an adapter that may complete work at any moment

  datatype Thread = Blocked | Woken | Draining(done: nat)

  /** `armed`: the next completion raises an event and disarms the queue. `handled` lists
      the completions handled so far, `sem` counts the semaphore posts they made. */
  datatype Loop = Loop(
    queue: seq<Wc>,
    armed: bool,
    events: nat,
    thread: Thread,
    handled: seq<Wc>,
    sem: nat)

  datatype Move = Arrive(w: Wc) | GetEvent | Arm | Poll(n: nat) | PollEmpty

  predicate CanMove(cap: nat, l: Loop, m: Move)
  {
    match m
    case Arrive(_) => |l.queue| < cap
    case GetEvent => l.thread.Blocked? && l.events > 0
    case Arm => l.thread.Woken?
    case Poll(n) => l.thread.Draining? && 1 <= n <= BATCH && n <= |l.queue|
    case PollEmpty => l.thread.Draining? && l.queue == []
  }

  function DoMove(l: Loop, m: Move): (r: Loop)
    requires m.GetEvent? ==> l.events > 0
    requires m.Poll? ==> l.thread.Draining? && m.n <= |l.queue|
  {
    match m
    case Arrive(w) =>
      l.(queue := l.queue + [w], armed := false, events := if l.armed then l.events + 1 else l.events)
    case GetEvent => l.(events := l.events - 1, thread := Woken)
    case Arm => l.(armed := true, thread := Draining(0))
    case Poll(n) =>
      var done := l.thread.done + n;
      l.(queue := l.queue[n..],
         handled := l.handled + l.queue[..n],
         sem := l.sem + |Posts(l.queue[..n])|,
         thread := if done >= BUDGET then Blocked else Draining(done))
    case PollEmpty => l.(thread := Blocked)
  }

  /** The queue is armed before the thread starts. */
  function Start(): (l: Loop) { Loop([], true, 0, Blocked, [], 0) }

  ghost predicate Follows(cap: nat, l: Loop, ms: seq<Move>, r: Loop)
    decreases |ms|
  {
    if ms == [] then r == l
    else CanMove(cap, l, ms[0]) && Follows(cap, DoMove(l, ms[0]), ms[1..], r)
  }

  ghost predicate Reached(cap: nat, l: Loop) { exists ms :: Follows(cap, Start(), ms, l) }

  /** A blocked thread will be woken for what the queue holds, or for what comes next. */
  predicate NotStranded(l: Loop)
  {
    l.thread.Blocked? ==>
      && (l.queue != [] ==> l.events > 0)
      && (l.queue == [] ==> l.armed || l.events > 0)
  }

  /** While draining, either an event is pending, or nothing has arrived since arming and
      the budget still covers what is left. */
  predicate LoopInv(l: Loop)
  {
    && NotStranded(l)
    && |l.queue| <= BUDGET
    && (l.thread.Draining? ==> l.events > 0 || (l.armed && |l.queue| + l.thread.done <= BUDGET))
  }

  lemma MoveKeeps(cap: nat, l: Loop, m: Move)
    requires cap <= BUDGET && LoopInv(l) && CanMove(cap, l, m)
    ensures LoopInv(DoMove(l, m))
  {
  }

  lemma {:induction false} MovesKeep(cap: nat, l: Loop, ms: seq<Move>, r: Loop)
    requires cap <= BUDGET && LoopInv(l) && Follows(cap, l, ms, r)
    ensures LoopInv(r)
    decreases |ms|
  {
    if ms != [] {
      MoveKeeps(cap, l, ms[0]);
      MovesKeep(cap, DoMove(l, ms[0]), ms[1..], r);
    }
  }

  // ---- a queue of 65 strands a completion

  lemma {:induction false} FollowsMore(cap: nat, l: Loop, ms: seq<Move>, m: Loop, ns: seq<Move>, r: Loop)
    requires Follows(cap, l, ms, m) && Follows(cap, m, ns, r)
    ensures Follows(cap, l, ms + ns, r)
    decreases |ms|
  {
    if ms == [] {
      assert ms + ns == ns;
    } else {
      FollowsMore(cap, DoMove(l, ms[0]), ms[1..], m, ns, r);
      assert (ms + ns)[0] == ms[0] && (ms + ns)[1..] == ms[1..] + ns;
    }
  }

  function Sends(n: nat): (q: seq<Wc>)
    ensures |q| == n
  {
    seq(n, _ => Wc(Send, true))
  }

  /** After the first completion raised its event, more pile up unannounced. */
  lemma {:induction false} PileUp(cap: nat, n: nat) returns (ms: seq<Move>)
    requires 1 <= n <= cap
    ensures Follows(cap, Start(), ms, Start().(queue := Sends(n), armed := false, events := 1))
  {
    if n == 1 {
      ms := [Arrive(Wc(Send, true))];
      assert [] + [Wc(Send, true)] == Sends(1);
      assert Follows(cap, DoMove(Start(), ms[0]), ms[1..], Start().(queue := Sends(1), armed := false, events := 1));
    } else {
      var before := PileUp(cap, n - 1);
      var mid := Start().(queue := Sends(n - 1), armed := false, events := 1);
      var last := [Arrive(Wc(Send, true))];
      assert Sends(n - 1) + [Wc(Send, true)] == Sends(n);
      assert Follows(cap, DoMove(mid, last[0]), last[1..], Start().(queue := Sends(n), armed := false, events := 1));
      FollowsMore(cap, Start(), before, mid, last, Start().(queue := Sends(n), armed := false, events := 1));
      ms := before + last;
    }
  }

  lemma PollSends(cap: nat, l: Loop)
    requires l.thread.Draining? && |l.queue| >= BATCH
    ensures Follows(cap, l, [Poll(BATCH)], DoMove(l, Poll(BATCH)))
  {
    assert Follows(cap, DoMove(l, Poll(BATCH)), [Poll(BATCH)][1..], DoMove(l, Poll(BATCH)));
  }

  lemma StrandedAt65(cap: nat) returns (r: Loop)
    requires cap > BUDGET
    ensures Reached(cap, r) && !NotStranded(r)
  {
    var ms := PileUp(cap, BUDGET + 1);
    var l0 := Start().(queue := Sends(BUDGET + 1), armed := false, events := 1);
    var l1 := DoMove(l0, GetEvent);
    var l2 := DoMove(l1, Arm);
    assert Follows(cap, l1, [Arm], l2) by { assert Follows(cap, l2, [Arm][1..], l2); }
    assert Follows(cap, l0, [GetEvent], l1) by { assert Follows(cap, l1, [GetEvent][1..], l1); }
    FollowsMore(cap, Start(), ms, l0, [GetEvent], l1);
    FollowsMore(cap, Start(), ms + [GetEvent], l1, [Arm], l2);
    var a := ms + [GetEvent] + [Arm];
    var l3 := DoMove(l2, Poll(BATCH));
    PollSends(cap, l2);
    FollowsMore(cap, Start(), a, l2, [Poll(BATCH)], l3);
    var l4 := DoMove(l3, Poll(BATCH));
    PollSends(cap, l3);
    FollowsMore(cap, Start(), a + [Poll(BATCH)], l3, [Poll(BATCH)], l4);
    var b := a + [Poll(BATCH)] + [Poll(BATCH)];
    var l5 := DoMove(l4, Poll(BATCH));
    PollSends(cap, l4);
    FollowsMore(cap, Start(), b, l4, [Poll(BATCH)], l5);
    r := DoMove(l5, Poll(BATCH));
    PollSends(cap, l5);
    FollowsMore(cap, Start(), b + [Poll(BATCH)], l5, [Poll(BATCH)], r);
  }

  /** No completion is ever stranded, under every interleaving of arrivals with the loop,
      exactly when the queue never holds more than the budget. */
  lemma NoStrandedCompletion(cap: nat)
    ensures (forall l :: Reached(cap, l) ==> NotStranded(l)) <==> cap <= BUDGET
  {
    if cap <= BUDGET {
      forall l | Reached(cap, l) ensures NotStranded(l) {
        var ms :| Follows(cap, Start(), ms, l);
        MovesKeep(cap, Start(), ms, l);
      }
    } else {
      var r := StrandedAt65(cap);
    }
  }

  // ---- nothing is lost, reordered or handled twice

  function Arrived(ms: seq<Move>): (ws: seq<Wc>)
  {
    if ms == [] then []
    else (if ms[0].Arrive? then [ms[0].w] else []) + Arrived(ms[1..])
  }

  lemma PostsFirst(w: Wc, rest: seq<Wc>)
    ensures Posts([w] + rest) == Posts([w]) + Posts(rest)
  {
    assert ([w] + rest)[1..] == rest && [w][1..] == [];
  }

  lemma Regroup<T>(a: seq<T>, b: seq<T>, c: seq<T>)
    ensures a + (b + c) == (a + b) + c
  {
  }

  lemma {:induction false} PostsConcat(a: seq<Wc>, b: seq<Wc>)
    ensures Posts(a + b) == Posts(a) + Posts(b)
    decreases |a|, 0
  {
    if a == [] {
      assert a + b == b;
    } else {
      var w, tail := a[0], a[1..];
      assert a == [w] + tail && a + b == [w] + (tail + b);
      ConcatFirst(w, tail, b);
    }
  }

  lemma {:induction false} ConcatFirst(w: Wc, tail: seq<Wc>, b: seq<Wc>)
    ensures Posts([w] + (tail + b)) == Posts([w] + tail) + Posts(b)
    decreases |tail|, 1
  {
    hide Posts;
    PostsConcat(tail, b);
    PostsFirst(w, tail + b);
    PostsFirst(w, tail);
    Regroup(Posts([w]), Posts(tail), Posts(b));
  }

  lemma MoveConserves(cap: nat, l: Loop, m: Move)
    requires CanMove(cap, l, m) && l.sem == |Posts(l.handled)|
    ensures var r := DoMove(l, m);
            && r.handled + r.queue == l.handled + l.queue + (if m.Arrive? then [m.w] else [])
            && r.sem == |Posts(r.handled)|
  {
    if m.Poll? {
      PostsConcat(l.handled, l.queue[..m.n]);
      assert l.queue == l.queue[..m.n] + l.queue[m.n..];
    }
  }

  /** What has been handled, followed by what is still queued, is what arrived, in order;
      and the semaphore has been posted once for each successful receive and READ among
      the completions handled. */
  lemma {:induction false} Conservation(cap: nat, l: Loop, ms: seq<Move>, r: Loop)
    requires Follows(cap, l, ms, r) && l.sem == |Posts(l.handled)|
    ensures r.handled + r.queue == l.handled + l.queue + Arrived(ms)
    ensures r.sem == |Posts(r.handled)|
    decreases |ms|
  {
    hide DoMove, Posts;
    if ms == [] {
      assert l.handled + l.queue + Arrived(ms) == l.handled + l.queue;
    } else {
      MoveConserves(cap, l, ms[0]);
      Conservation(cap, DoMove(l, ms[0]), ms[1..], r);
      var now := if ms[0].Arrive? then [ms[0].w] else [];
      assert l.handled + l.queue + now + Arrived(ms[1..]) == l.handled + l.queue + (now + Arrived(ms[1..]));
    }
  }

  // ---- the server's loop, whose thread ends on the budget

  datatype Worker = Asleep | Awake | Busy(done: nat) | Gone

  /** `since`: the completions that arrived after a poll last found the queue empty. */
  datatype Service = Service(queue: seq<Wc>, armed: bool, events: nat, worker: Worker, since: nat)

  /** At most `most` completions arrive between two polls that find the queue empty. */
  predicate CanServe(cap: nat, most: nat, l: Service, m: Move)
  {
    match m
    case Arrive(_) => |l.queue| < cap && l.since < most
    case GetEvent => l.worker.Asleep? && l.events > 0
    case Arm => l.worker.Awake?
    case Poll(n) => l.worker.Busy? && 1 <= n <= BATCH && n <= |l.queue|
    case PollEmpty => l.worker.Busy? && l.queue == []
  }

  function DoServe(l: Service, m: Move): (r: Service)
    requires m.GetEvent? ==> l.events > 0
    requires m.Poll? ==> l.worker.Busy? && m.n <= |l.queue|
  {
    match m
    case Arrive(w) =>
      l.(queue := l.queue + [w], armed := false, events := if l.armed then l.events + 1 else l.events,
         since := l.since + 1)
    case GetEvent => l.(events := l.events - 1, worker := Awake)
    case Arm => l.(armed := true, worker := Busy(0))
    case Poll(n) =>
      var done := l.worker.done + n;
      l.(queue := l.queue[n..], worker := if done >= BUDGET then Gone else Busy(done))
    case PollEmpty => l.(worker := Asleep, since := 0)
  }

  const IDLE := Service([], true, 0, Asleep, 0)

  ghost predicate Serves(cap: nat, most: nat, l: Service, ms: seq<Move>, r: Service)
    decreases |ms|
  {
    if ms == [] then r == l
    else CanServe(cap, most, l, ms[0]) && Serves(cap, most, DoServe(l, ms[0]), ms[1..], r)
  }

  ghost predicate Served(cap: nat, most: nat, l: Service) { exists ms :: Serves(cap, most, IDLE, ms, l) }

  /** The thread lives, and if it sleeps it will be woken for what the queue holds or for
      what comes next. */
  predicate Attended(l: Service)
  {
    && !l.worker.Gone?
    && (l.worker.Asleep? ==> l.events > 0 || (l.armed && l.queue == []))
  }

  predicate ServiceInv(most: nat, l: Service)
  {
    && Attended(l)
    && |l.queue| + (if l.worker.Busy? then l.worker.done else 0) <= l.since <= most
    && (l.worker.Busy? ==> l.events > 0 || l.armed)
  }

  lemma {:induction false} ServiceKeeps(cap: nat, most: nat, l: Service, ms: seq<Move>, r: Service)
    requires most < BUDGET && ServiceInv(most, l) && Serves(cap, most, l, ms, r)
    ensures ServiceInv(most, r)
    decreases |ms|
  {
    if ms != [] {
      assert ServiceInv(most, DoServe(l, ms[0]));
      ServiceKeeps(cap, most, DoServe(l, ms[0]), ms[1..], r);
    }
  }

  lemma {:induction false} ServesMore(cap: nat, most: nat, l: Service, ms: seq<Move>, m: Service, a: Move)
    requires Serves(cap, most, l, ms, m) && CanServe(cap, most, m, a)
    ensures Serves(cap, most, l, ms + [a], DoServe(m, a))
    decreases |ms|
  {
    if ms == [] {
      assert Serves(cap, most, DoServe(l, a), [a][1..], DoServe(m, a));
      assert ms + [a] == [a];
    } else {
      ServesMore(cap, most, DoServe(l, ms[0]), ms[1..], m, a);
      assert (ms + [a])[1..] == ms[1..] + [a] && (ms + [a])[0] == ms[0];
    }
  }

  /** A drain that is fed one completion before each of its polls. */
  lemma {:induction false} Fed(cap: nat, most: nat, n: nat) returns (ms: seq<Move>, l: Service)
    requires cap >= 1 && n < BUDGET <= most
    ensures Serves(cap, most, IDLE, ms, l) && l.worker == Busy(n) && |l.queue| == 1 && l.since == n + 1
  {
    if n == 0 {
      ms, l := [], IDLE;
      ms, l := ServeOne(cap, most, ms, l, Arrive(Wc(Send, true)));
      ms, l := ServeOne(cap, most, ms, l, GetEvent);
      ms, l := ServeOne(cap, most, ms, l, Arm);
    } else {
      ms, l := Fed(cap, most, n - 1);
      ms, l := ServeOne(cap, most, ms, l, Poll(1));
      ms, l := ServeOne(cap, most, ms, l, Arrive(Wc(Send, true)));
    }
  }

  lemma ServeOne(cap: nat, most: nat, ms: seq<Move>, l: Service, a: Move) returns (ms': seq<Move>, r: Service)
    requires Serves(cap, most, IDLE, ms, l) && CanServe(cap, most, l, a)
    ensures Serves(cap, most, IDLE, ms', r) && r == DoServe(l, a)
  {
    ServesMore(cap, most, IDLE, ms, l, a);
    ms', r := ms + [a], DoServe(l, a);
  }

  /** The server's thread lives and strands no completion, under every interleaving,
      exactly when fewer than 64 completions arrive between two polls that find its queue
      empty. The size of the queue does not matter: a queue of one entry does not help. */
  lemma NoStrandedRequest(cap: nat, most: nat)
    requires cap >= 1
    ensures (forall l :: Served(cap, most, l) ==> Attended(l)) <==> most < BUDGET
  {
    if most < BUDGET {
      forall l | Served(cap, most, l) ensures Attended(l) {
        var ms :| Serves(cap, most, IDLE, ms, l);
        ServiceKeeps(cap, most, IDLE, ms, l);
      }
    } else {
      var ms, l := Fed(cap, most, BUDGET - 1);
      var ms', r := ServeOne(cap, most, ms, l, Poll(1));
      assert Served(cap, most, r) && r.worker.Gone?;
    }
  }

  // ---- cq_event_handler as it is written

  /** What the adapter does around the polls of one call: the completions that arrive
      before the k-th poll, and how many the k-th poll returns of those waiting. */
  datatype Adapter = Adapter(arrivals: nat -> seq<Wc>, batch: nat -> nat)

  function PollSize(ad: Adapter, k: nat, queued: nat): (n: nat)
    ensures n <= BATCH && n <= queued && (n == 0 <==> queued == 0)
  {
    var most := if queued < BATCH then queued else BATCH;
    var n := ad.batch(k);
    if queued == 0 then 0 else if n < 1 then 1 else if n > most then most else n
  }

  function ArrivedUpTo(ad: Adapter, k: nat): (ws: seq<Wc>)
  {
    if k == 0 then [] else ArrivedUpTo(ad, k - 1) + ad.arrivals(k - 1)
  }

  datatype Side = ClientSide | ServerSide

  /** What handling completions does: the client posts its semaphore for a successful
      receive or READ, the server runs a handler for a successful receive. */
  function Effects(side: Side, ws: seq<Wc>): (n: nat)
  {
    if side.ClientSide? then |Posts(ws)| else Arrivals(ws)
  }

  lemma {:induction false} EffectsConcat(side: Side, a: seq<Wc>, b: seq<Wc>)
    ensures Effects(side, a + b) == Effects(side, a) + Effects(side, b)
  {
    PostsConcat(a, b);
    ArrivalsConcat(a, b);
  }

  lemma {:induction false} ArrivalsConcat(a: seq<Wc>, b: seq<Wc>)
    ensures Arrivals(a + b) == Arrivals(a) + Arrivals(b)
  {
    if a == [] {
      assert a + b == b;
    } else {
      ArrivalsConcat(a[1..], b);
      assert (a + b)[1..] == a[1..] + b;
    }
  }

  /** A poll moves the head of the queue, with what came before it, to what was handled. */
  lemma PollMoves(handled: seq<Wc>, queue: seq<Wc>, came: seq<Wc>, n: nat)
    requires n <= |queue + came|
    ensures handled + (queue + came)[..n] + (queue + came)[n..] == handled + queue + came
  {
  }

  lemma ArrivedNext(ad: Adapter, start: seq<Wc>, k: nat, so: seq<Wc>)
    requires so == start + ArrivedUpTo(ad, k)
    ensures so + ad.arrivals(k) == start + ArrivedUpTo(ad, k + 1)
  {
    Regroup(start, ArrivedUpTo(ad, k), ad.arrivals(k));
  }

  lemma NoneArrived(ad: Adapter, queue: seq<Wc>)
    ensures [] + queue == queue + ArrivedUpTo(ad, 0)
  {
  }

  class CompletionQueue {
    const side: Side
    var queue: seq<Wc>
    var effects: nat   // semaphore posts of the client, handlers run by the server

    constructor (side: Side, queue: seq<Wc>)
      ensures this.side == side && this.queue == queue && this.effects == 0
    {
      this.side := side;
      this.queue := queue;
      this.effects := 0;
    }

    /** rpmem_handle_wc of either side. */
    method HandleWc(w: Wc)
      modifies this`effects
      ensures effects == old(effects) + Effects(side, [w])
    {
      OneEffect(side, w);
      if w.ok {
        if w.op == Recv {
          effects := effects + 1;
        } else if w.op == Read && side.ClientSide? {
          effects := effects + 1;
        }
      }
    }

    method HandleBatch(wc: seq<Wc>)
      modifies this`effects
      ensures effects == old(effects) + Effects(side, wc)
    {
      for i := 0 to |wc|
        invariant effects == old(effects) + Effects(side, wc[..i])
      {
        HandleWc(wc[i]);
        EffectsConcat(side, wc[..i], [wc[i]]);
        assert wc[..i + 1] == wc[..i] + [wc[i]];
      }
      assert wc[..|wc|] == wc;
    }

    /** The drain loop. However completions keep arriving, the call ends after handling at
        most 79 of them, each once and in queue order; it stops short of an empty queue
        only when it has handled at least 64. `n` is the size of the last poll. */
    method Drain(ad: Adapter) returns (handled: seq<Wc>, polls: nat, n: nat)
      modifies this
      ensures handled + queue == old(queue) + ArrivedUpTo(ad, polls)
      ensures effects == old(effects) + Effects(side, handled)
      ensures |handled| <= BUDGET + BATCH - 1
      ensures n == 0 ==> queue == []
      ensures n > 0 <==> |handled| >= BUDGET
    {
      hide Effects, ArrivedUpTo;
      var completed := 0;
      handled, polls := [], 0;
      n := 1;
      NoEffects(side);
      assert handled + queue == old(queue) + ArrivedUpTo(ad, polls) by { NoneArrived(ad, queue); }
      while n > 0
        invariant handled + queue == old(queue) + ArrivedUpTo(ad, polls)
        invariant effects == old(effects) + Effects(side, handled)
        invariant completed == |handled| < BUDGET
        invariant n == 0 ==> queue == []
        decreases if n > 0 then 1 + BUDGET - completed else 0
      {
        ghost var was, came := queue, ad.arrivals(polls);
        queue := queue + ad.arrivals(polls);
        n := PollSize(ad, polls, |queue|);
        PollMoves(handled, was, came, n);
        ArrivedNext(ad, old(queue), polls, handled + was);
        polls := polls + 1;
        var wc := queue[..n];
        queue := queue[n..];
        HandleBatch(wc);
        EffectsConcat(side, handled, wc);
        handled := handled + wc;
        completed := completed + n;
        if completed >= BUDGET {
          return;
        }
      }
    }

    /** cq_event_handler of rpmem.c: leaving on the budget is not an error. */
    method ClientEventHandler(ad: Adapter) returns (ret: int, handled: seq<Wc>)
      requires side.ClientSide?
      modifies this
      ensures ret == 0
      ensures |handled| < BUDGET ==> queue == []
      ensures |handled| <= 79
      ensures effects == old(effects) + |Posts(handled)|
      ensures exists polls: nat :: handled + queue == old(queue) + ArrivedUpTo(ad, polls)
    {
      var polls, n;
      handled, polls, n := Drain(ad);
      ret := 0;
    }

    /** cq_event_handler of rpmem_server.c: each successful receive runs a handler; leaving
        on the budget reports an error, and the unit's completion thread ends. */
    method ServerEventHandler(ad: Adapter) returns (ret: int, handled: seq<Wc>)
      requires side.ServerSide?
      modifies this
      ensures ret == -1 <==> |handled| >= BUDGET
      ensures ret == 0 ==> queue == []
      ensures |handled| <= 79
      ensures effects == old(effects) + Arrivals(handled)
      ensures exists polls: nat :: handled + queue == old(queue) + ArrivedUpTo(ad, polls)
    {
      var polls, n;
      handled, polls, n := Drain(ad);
      if n > 0 {
        ret := -1;
      } else {
        ret := 0;
      }
    }
  }

  lemma OneEffect(side: Side, w: Wc)
    ensures Effects(side, [w]) == Count(w.ok && (w.op == Recv || (w.op == Read && side.ClientSide?)))
  {
    assert [w][1..] == [];
    assert Posts([w]) == (if Wakes(w) then [w.op] else []) + Posts([w][1..]);
    assert Arrivals([w]) == Count(w == Wc(Recv, true)) + Arrivals([w][1..]);
  }

  lemma NoEffects(side: Side)
    ensures Effects(side, []) == 0
  {
  }
}
