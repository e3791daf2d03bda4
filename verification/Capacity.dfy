/** The client's completion queue has eight entries. Its queue pair takes four send and
    four receive requests, so the queue never overflows, whatever fails. */
module Capacity {
  import opened Wire
  import opened PoolModel
  import opened System
  import opened Invariant
  import opened Safety
  import opened Termination
  import Notify

  /** max_cqe of the client's completion queue. */
  const CQ_ENTRIES := 8

  predicate Fits(cl: Client) { RecvSlots(cl) <= SLOTS && SendSlots(cl) <= SLOTS }

  lemma {:induction false} RecvsAppend(cq: seq<Wc>, w: Wc)
    ensures RecvsIn(cq + [w]) == RecvsIn(cq) + Count(w.op == Recv)
  {
    if cq == [] {
      assert cq + [w] == [w];
    } else {
      RecvsAppend(cq[1..], w);
      assert (cq + [w])[1..] == cq[1..] + [w];
    }
  }

  /** A failing command takes no slot. */
  lemma FailFits()
    ensures forall cn, cmd :: Fits(FailCommand(cn, cmd).cl) == Fits(cn.cl)
  {
    hide RecvsIn;
  }

  lemma IssueFits(c: ConnId, cn: Conn, sh: Shared, a: Step)
    requires Fits(cn.cl) && CanIssue(c, cn, sh, a)
    ensures Fits(DoIssue(c, cn, sh, a).0.cl)
  {
    hide PackRequest, ReqOf, RecvsIn, FailCommand;
    FailFits();
  }

  lemma FinishFits(c: ConnId, cn: Conn, sh: Shared, a: Step)
    requires Fits(cn.cl) && CanFinish(c, cn, sh, a)
    ensures Fits(DoFinish(c, cn, sh, a).0.cl)
  {
    hide UnpackResponse, RecvsIn;
  }

  lemma PollFits(cn: Conn)
    requires Fits(cn.cl) && cn.cl.cq != []
    ensures Fits(DoCPoll(cn).cl)
  {
  }

  lemma AdapterFits(c: ConnId, cn: Conn, sh: Shared, a: Step)
    requires Fits(cn.cl) && CanAdapter(c, cn, sh, a)
    ensures Fits(DoAdapter(c, cn, sh, a).0.cl)
  {
    hide Access, WriteBytes, RecvsIn, DoCPoll;
    match a
    case CComplete => RecvsAppend(cn.cl.cq, Wc(OpOf(cn.cl.unacked[0]), true));
    case CPoll => PollFits(cn);
    case CFlushRecv => RecvsAppend(cn.cl.cq, Wc(Recv, false));
    case CFlushSend =>
      RecvsAppend(cn.cl.cq, Wc(OpOf(if cn.cl.unacked != [] then cn.cl.unacked[0] else cn.cl.sq[0]), false));
    case _ =>
  }

  lemma ServerFits(c: ConnId, cn: Conn, sh: Shared, a: Step)
    requires Fits(cn.cl) && CanServer(c, cn, sh, a)
    ensures Fits(DoServer(c, cn, sh, a).0.cl)
  {
    hide PackResponse, HandlerView, RecvsIn;
    RecvsAppend(cn.cl.cq, Wc(Recv, true));
  }

  lemma StepFits(c: ConnId, cn: Conn, sh: Shared, a: Step)
    requires Fits(cn.cl) && Enabled(c, cn, sh, a)
    ensures Fits(Apply(c, cn, sh, a).0.cl)
  {
    hide Fits, DoIssue, DoFinish, DoAdapter, DoServer, DoHandler,
      CanIssue, CanFinish, CanAdapter, CanServer, CanHandler;
    if Issues(a) {
      IssueFits(c, cn, sh, a);
    } else if Finishes(a) {
      FinishFits(c, cn, sh, a);
    } else if ClientAdapter(a) {
      AdapterFits(c, cn, sh, a);
    } else if Handlers(a) {
      HandlerStage(c, cn, sh, a);
    } else {
      ServerFits(c, cn, sh, a);
    }
  }

  lemma {:induction false} RunFits(run: seq<State>, i: nat, c: ConnId)
    requires IsRun(run) && i < |run| && c in run[i].conns
    ensures Fits(run[i].conns[c].cl)
  {
    hide Fits, Enabled, Apply;
    if i == 0 {
      var req, rsp :| run[0].conns[c] == NewConn(req, rsp);
      NewFits(req, rsp);
    } else {
      assert OneStep(run[i - 1], run[i - 1 + 1]);
      var d, a :| CanStep(run[i - 1], d, a) && run[i] == Next(run[i - 1], d, a);
      NextConns(run[i - 1], d, a);
      RunFits(run, i - 1, c);
      if d == c { StepFits(c, run[i - 1].conns[c], run[i - 1].sh, a); }
    }
  }

  lemma NewFits(req: Buffer, rsp: Buffer)
    ensures Fits(NewConn(req, rsp).cl)
  {
  }

  // ---- the event loop keeps up with the model's completion thread

  /** A step leaves the client's queue, adds one completion at its end or takes the first. */
  predicate QueueStep(cq: seq<Wc>, cq': seq<Wc>)
  {
    || cq' == cq
    || (cq' != [] && cq' == cq + [cq'[|cq'| - 1]])
    || (cq != [] && cq' == cq[1..])
  }

  lemma FailQueue()
    ensures forall cn, cmd :: FailCommand(cn, cmd).cl.cq == cn.cl.cq
  {
  }

  lemma IssueQueue(c: ConnId, cn: Conn, sh: Shared, a: Step)
    requires CanIssue(c, cn, sh, a)
    ensures DoIssue(c, cn, sh, a).0.cl.cq == cn.cl.cq
  {
    hide PackRequest, ReqOf, RecvRoom, SendRoom, FailCommand;
    FailQueue();
  }

  lemma FinishQueue(c: ConnId, cn: Conn, sh: Shared, a: Step)
    requires CanFinish(c, cn, sh, a)
    ensures DoFinish(c, cn, sh, a).0.cl.cq == cn.cl.cq
  {
    hide UnpackResponse, SendRoom;
  }

  lemma AdapterQueue(c: ConnId, cn: Conn, sh: Shared, a: Step)
    requires CanAdapter(c, cn, sh, a)
    ensures QueueStep(cn.cl.cq, DoAdapter(c, cn, sh, a).0.cl.cq)
  {
    hide Access, WriteBytes;
  }

  lemma ServerQueue(c: ConnId, cn: Conn, sh: Shared, a: Step)
    requires CanServer(c, cn, sh, a)
    ensures QueueStep(cn.cl.cq, DoServer(c, cn, sh, a).0.cl.cq)
  {
    hide PackResponse, HandlerView;
  }

  lemma StepQueue(c: ConnId, cn: Conn, sh: Shared, a: Step)
    requires Enabled(c, cn, sh, a)
    ensures QueueStep(cn.cl.cq, Apply(c, cn, sh, a).0.cl.cq)
  {
    hide DoIssue, DoFinish, DoAdapter, DoServer, DoHandler, CanIssue, CanFinish, CanAdapter, CanServer, CanHandler;
    if Issues(a) {
      IssueQueue(c, cn, sh, a);
    } else if Finishes(a) {
      FinishQueue(c, cn, sh, a);
    } else if ClientAdapter(a) {
      AdapterQueue(c, cn, sh, a);
    } else if Handlers(a) {
      HandlerStage(c, cn, sh, a);
    } else {
      ServerQueue(c, cn, sh, a);
    }
  }

  lemma LoopMoves(ms: seq<Notify.Move>, l: Notify.Loop, m: Notify.Move) returns (more: seq<Notify.Move>, r: Notify.Loop)
    requires Notify.Follows(CQ_ENTRIES, Notify.Start(), ms, l) && Notify.LoopInv(l) && Notify.CanMove(CQ_ENTRIES, l, m)
    ensures Notify.Follows(CQ_ENTRIES, Notify.Start(), more, r) && Notify.LoopInv(r) && r == Notify.DoMove(l, m)
  {
    r := Notify.DoMove(l, m);
    Notify.MoveKeeps(CQ_ENTRIES, l, m);
    assert Notify.Follows(CQ_ENTRIES, r, [m][1..], r);
    assert Notify.Follows(CQ_ENTRIES, l, [m], r);
    Notify.FollowsMore(CQ_ENTRIES, Notify.Start(), ms, l, [m], r);
    more := ms + [m];
  }

  /** A completion that is queued can be polled by the event loop: if its thread is blocked
      there is an event for it. */
  lemma LoopPolls(ms: seq<Notify.Move>, l: Notify.Loop) returns (more: seq<Notify.Move>, r: Notify.Loop)
    requires Notify.Follows(CQ_ENTRIES, Notify.Start(), ms, l) && Notify.LoopInv(l) && l.queue != []
    ensures Notify.Follows(CQ_ENTRIES, Notify.Start(), more, r) && Notify.LoopInv(r) && r.queue == l.queue[1..]
  {
    more, r := ms, l;
    if r.thread.Blocked? { more, r := LoopMoves(more, r, Notify.GetEvent); }
    if r.thread.Woken? { more, r := LoopMoves(more, r, Notify.Arm); }
    more, r := LoopMoves(more, r, Notify.Poll(1));
  }

  lemma LoopFollows(ms: seq<Notify.Move>, l: Notify.Loop, cq: seq<Wc>)
    returns (more: seq<Notify.Move>, r: Notify.Loop)
    requires Notify.Follows(CQ_ENTRIES, Notify.Start(), ms, l) && Notify.LoopInv(l)
    requires QueueStep(l.queue, cq) && |cq| <= CQ_ENTRIES
    ensures Notify.Follows(CQ_ENTRIES, Notify.Start(), more, r) && Notify.LoopInv(r) && r.queue == cq
  {
    if cq == l.queue {
      more, r := ms, l;
    } else if cq != [] && cq == l.queue + [cq[|cq| - 1]] {
      more, r := LoopMoves(ms, l, Notify.Arrive(cq[|cq| - 1]));
    } else {
      more, r := LoopPolls(ms, l);
    }
  }

  lemma {:induction false} RunLoop(run: seq<State>, i: nat, c: ConnId) returns (ms: seq<Notify.Move>, l: Notify.Loop)
    requires IsRun(run) && i < |run| && c in run[i].conns
    ensures Notify.Follows(CQ_ENTRIES, Notify.Start(), ms, l) && Notify.LoopInv(l) && l.queue == run[i].conns[c].cl.cq
  {
    hide Enabled, Apply, QueueStep, Notify.LoopInv;
    RunFits(run, i, c);
    if i == 0 {
      var req, rsp :| run[0].conns[c] == NewConn(req, rsp);
      ms, l := [], Notify.Start();
      StartLoop();
    } else {
      assert OneStep(run[i - 1], run[i - 1 + 1]);
      var d, a :| CanStep(run[i - 1], d, a) && run[i] == Next(run[i - 1], d, a);
      NextConns(run[i - 1], d, a);
      ms, l := RunLoop(run, i - 1, c);
      if d == c {
        StepQueue(c, run[i - 1].conns[c], run[i - 1].sh, a);
        ms, l := LoopFollows(ms, l, run[i].conns[c].cl.cq);
      }
    }
  }

  lemma StartLoop()
    ensures Notify.LoopInv(Notify.Start()) && Notify.Start().queue == []
  {
  }

  /** In every reachable state the queue holds no more than its eight entries, even counting
      the completions that the posted requests still owe. So the client's event loop, which
      arms its queue and waits for events, can be where the model's client is: a run of the
      loop on a queue of eight entries holds exactly the completions that the model's queue
      holds, and strands none of them. */
  lemma ClientQueueFits(s: State, c: ConnId)
    requires Reachable(s) && c in s.conns
    ensures var cl := s.conns[c].cl; |cl.cq| + |cl.unacked| + |cl.sq| + cl.recvs <= CQ_ENTRIES
    ensures exists l :: Notify.Reached(CQ_ENTRIES, l) && Notify.NotStranded(l) && l.queue == s.conns[c].cl.cq
  {
    hide Initial, OneStep, Notify.NotStranded, Notify.Follows;
    var run :| IsRun(run) && run[|run| - 1] == s;
    RunFits(run, |run| - 1, c);
    var ms, l := RunLoop(run, |run| - 1, c);
    assert Notify.Reached(CQ_ENTRIES, l);
  }
}
