/** A bound on the work of a command: every step brings it closer to its end, however the
    steps of other connections are interleaved. */
module Termination {
  import opened Wire
  import opened PoolModel
  import opened System
  import opened Invariant
  import opened Induction
  import opened Safety

  // ---- a bound on the work left

  function ClientWork(st: CStage): (n: nat)
  {
    match st
    case CIdle | CClosed => 0
    case CReadWait => 1
    case CMapDec => 31
    case CWoken(_) => 32
    case CWait(_) => 33
    case CPacked(_) => 63
    case CWrote => 64
    case CRecvd(_) => 94
    case CBegun(_) => 95
  }

  function ServerWork(st: SStage): (n: nat)
  {
    match st
    case SIdle => 0
    case SSent => 1
    case SPacked(_, _) => 9
    case SReply(_, _) => 10
    case SGiving(_) => 11
    case SUnmapped(_, _) => 16
    case SUnreg(_, _) => 17
    case SMmapped(_, _, _, _) => 11
    case SMapDone(_, _) => 12
    case SMapLocked(_) => 13
    case SBody(_, _) => 19
    case SOpenRead(_) => 20
    case SDecoded(_, _) => 21
    case SDispatched(_) => 22
  }

  /** The stores left in a critical section. */
  function SectionWork(p: Pool): (n: nat)
  {
    match p.lock
    case Unlocked => 0
    case Taking(_, _, _, _, k) => if k < 5 then 5 - k else 0
    case Giving(_, _, _, k) => if k < 4 then 4 - k else 0
  }

  function ClientQueues(cl: Client): (n: nat)
  {
    29 * |cl.sq| + 3 * |cl.unacked| + 2 * |cl.cq| + |cl.sem|
  }

  function ServerQueues(sv: Server): (n: nat)
  {
    22 * Arrivals(sv.cq) + PollWork(sv) + 7 * sv.sq + 4 * sv.unacked
  }

  /** Completions to poll and to handle, and the poll that finds the queue empty. */
  function PollWork(sv: Server): (n: nat)
  {
    3 * |sv.cq| - 2 * (if sv.polled <= |sv.cq| then sv.polled else |sv.cq|) + (if sv.drained > 0 then 1 else 0)
  }

  /** An upper bound on the steps connection c can still take before its command is over:
      what its threads have left to do, plus what its queued work requests and completions
      will cause. */
  function Work(c: ConnId, cn: Conn, sh: Shared): (n: nat)
  {
    ClientWork(cn.cl.stage) + ServerWork(cn.sv.stage)
    + (if Holds(sh.pool, c) then SectionWork(sh.pool) else 0)
    + ClientQueues(cn.cl) + ServerQueues(cn.sv)
  }

  /** The steps of the protocol proper: not a new call, not the application writing its
      buffer, not an injected failure. */
  predicate Ordinary(a: Step)
  {
    !a.Begin? && !a.AppWrite? && !a.Break? && !a.CFlushRecv? && !a.CFlushSend? && !a.SError?
  }

  lemma IssueWorkDrops(c: ConnId, cn: Conn, sh: Shared, a: Step)
    requires CanIssue(c, cn, sh, a) && !a.Begin? && !DoIssue(c, cn, sh, a).0.faulty
    ensures Work(c, DoIssue(c, cn, sh, a).0, DoIssue(c, cn, sh, a).1) < Work(c, cn, sh)
  {
    hide PackRequest, SectionWork, ServerQueues, ServerWork;
  }

  lemma UnpackWorkDrops(c: ConnId, cn: Conn, sh: Shared)
    requires cn.cl.stage.CWoken? && !DoCUnpack(cn).faulty
    ensures Work(c, DoCUnpack(cn), sh) < Work(c, cn, sh)
  {
    hide SectionWork, ServerQueues, ServerWork, GetU32, GetU64, UnpackResponse;
  }

  lemma FinishWorkDrops(c: ConnId, cn: Conn, sh: Shared, a: Step)
    requires CanFinish(c, cn, sh, a) && !a.AppWrite? && !DoFinish(c, cn, sh, a).0.faulty
    ensures Work(c, DoFinish(c, cn, sh, a).0, DoFinish(c, cn, sh, a).1) < Work(c, cn, sh)
  {
    hide SectionWork, ServerQueues, ServerWork, DoCUnpack;
    if a.CUnpack? { UnpackWorkDrops(c, cn, sh); }
  }

  lemma ExecWorkDrops(c: ConnId, cn: Conn, sh: Shared)
    requires CanExec(cn) && !DoCExec(c, cn, sh).0.faulty
    ensures Work(c, DoCExec(c, cn, sh).0, DoCExec(c, cn, sh).1) < Work(c, cn, sh)
  {
    hide SectionWork, Access, ServerWork, ClientWork, WriteBytes;
    ArrivalsAppend(cn.sv.cq, Wc(Recv, true));
    var r := DoCExec(c, cn, sh).0;
    assert ClientQueues(r.cl) == ClientQueues(cn.cl) - 26;
    assert ServerQueues(r.sv) <= ServerQueues(cn.sv) + 25;
  }

  lemma AdapterWorkDrops(c: ConnId, cn: Conn, sh: Shared, a: Step)
    requires CanAdapter(c, cn, sh, a) && Ordinary(a) && !DoAdapter(c, cn, sh, a).0.faulty
    ensures Work(c, DoAdapter(c, cn, sh, a).0, DoAdapter(c, cn, sh, a).1) < Work(c, cn, sh)
  {
    hide SectionWork, ServerQueues, ServerWork, ClientWork, DoCExec;
    if a.CExec? { ExecWorkDrops(c, cn, sh); }
  }

  lemma TakeWorkDrops(c: ConnId, cn: Conn, sh: Shared, a: Step)
    requires CanServer(c, cn, sh, a) && TakesRequest(a)
    ensures Work(c, DoServer(c, cn, sh, a).0, DoServer(c, cn, sh, a).1) < Work(c, cn, sh)
  {
    hide SectionWork, ClientQueues, ClientWork, GetU32, GetU64, Zeroed;
  }

  lemma DeliverWorkDrops(c: ConnId, cn: Conn, sh: Shared)
    requires CanDeliver(cn)
    ensures Work(c, DoSDeliver(cn), sh) < Work(c, cn, sh)
  {
    hide SectionWork, ServerWork, ClientWork, Arrivals, PollWork;
    var r := DoSDeliver(cn);
    assert ClientQueues(r.cl) == ClientQueues(cn.cl) + 2;
    assert PollWork(r.sv) == PollWork(cn.sv) by { StagePolls(cn.sv, r.sv); }
    assert ServerQueues(r.sv) == ServerQueues(cn.sv) - 3;
  }

  lemma StagePolls(sv: Server, sv': Server)
    requires sv'.cq == sv.cq && sv'.polled == sv.polled && sv'.drained == sv.drained
    ensures PollWork(sv') == PollWork(sv)
  {
  }

  lemma AckWorkDrops(c: ConnId, cn: Conn, sh: Shared)
    requires cn.sv.unacked > 0
    ensures Work(c, cn.(sv := cn.sv.(unacked := cn.sv.unacked - 1, cq := cn.sv.cq + [Wc(Send, true)])), sh) < Work(c, cn, sh)
  {
    hide SectionWork, ServerWork, ClientWork, ClientQueues;
    ArrivalsAppend(cn.sv.cq, Wc(Send, true));
  }

  lemma ReplyWorkDrops(c: ConnId, cn: Conn, sh: Shared, a: Step)
    requires CanServer(c, cn, sh, a) && !TakesRequest(a) && Ordinary(a)
    ensures Work(c, DoServer(c, cn, sh, a).0, DoServer(c, cn, sh, a).1) < Work(c, cn, sh)
  {
    hide SectionWork, PackResponse, ClientWork, ClientQueues, Arrivals, PollWork, DoSDeliver;
    var r := DoServer(c, cn, sh, a).0;
    if a.SDeliver? {
      DeliverWorkDrops(c, cn, sh);
    } else if a.SAck? {
      AckWorkDrops(c, cn, sh);
    } else {
      StagePolls(cn.sv, r.sv);
    }
  }

  lemma HandlerStage(c: ConnId, cn: Conn, sh: Shared, a: Step)
    requires CanHandler(c, cn, sh, a)
    ensures var r := DoHandler(c, cn, sh, a).0; r == cn.(sv := cn.sv.(stage := r.sv.stage))
  {
    hide MapBytes, UnmapBytes, Fresh, Mapped, Store, CanStore;
  }

  lemma CallWorkDrops(c: ConnId, cn: Conn, sh: Shared, a: Step)
    requires CanHandler(c, cn, sh, a) && !InPool(a)
    ensures DoHandler(c, cn, sh, a).1.pool == sh.pool
    ensures ServerWork(DoHandler(c, cn, sh, a).0.sv.stage) < ServerWork(cn.sv.stage)
  {
    hide MapBytes, UnmapBytes, Fresh, Mapped, DoSLock, DoSUnlock, CanLock, CanUnlock, Store, CanStore;
  }

  lemma StageQueues(sv: Server, st: SStage)
    ensures ServerQueues(sv.(stage := st)) == ServerQueues(sv)
  {
  }

  lemma HandlerWorkDrops(c: ConnId, cn: Conn, sh: Shared, a: Step)
    requires CanHandler(c, cn, sh, a) && !InPool(a)
    ensures Work(c, DoHandler(c, cn, sh, a).0, DoHandler(c, cn, sh, a).1) < Work(c, cn, sh)
  {
    hide SectionWork, ClientQueues, ServerQueues, ClientWork, ServerWork, DoHandler, CanHandler;
    HandlerStage(c, cn, sh, a);
    CallWorkDrops(c, cn, sh, a);
    StageQueues(cn.sv, DoHandler(c, cn, sh, a).0.sv.stage);
  }

  /** Entering, doing a store of, and leaving a critical section. */
  lemma SectionDrops(c: ConnId, cn: Conn, sh: Shared, a: Step)
    requires CanHandler(c, cn, sh, a) && InPool(a)
    requires Holds(sh.pool, c) <==> InSection(cn.sv)
    ensures var (r, sh') := DoHandler(c, cn, sh, a);
            ServerWork(r.sv.stage) + (if Holds(sh'.pool, c) then SectionWork(sh'.pool) else 0)
            < ServerWork(cn.sv.stage) + (if Holds(sh.pool, c) then SectionWork(sh.pool) else 0)
  {
    hide DoSMmap, DoSRegMr, DoSDereg, DoSMunmap, DoSMsync, CanMmap, CanRegMr, CanDereg, CanMunmap, CanMsync,
      Listed, Chosen, Without;
  }

  lemma PoolWorkDrops(c: ConnId, cn: Conn, sh: Shared, a: Step)
    requires CanHandler(c, cn, sh, a) && InPool(a)
    requires Holds(sh.pool, c) <==> InSection(cn.sv)
    ensures Work(c, DoHandler(c, cn, sh, a).0, DoHandler(c, cn, sh, a).1) < Work(c, cn, sh)
  {
    hide ClientQueues, ServerQueues, ClientWork, ServerWork, SectionWork, DoHandler, CanHandler;
    SectionDrops(c, cn, sh, a);
    HandlerStage(c, cn, sh, a);
    StageQueues(cn.sv, DoHandler(c, cn, sh, a).0.sv.stage);
  }

  /** Every ordinary step of a connection that does not end in a failure uses up work. */
  lemma WorkDrops(c: ConnId, cn: Conn, sh: Shared, a: Step)
    requires ConnInv(c, cn, sh) && Enabled(c, cn, sh, a) && Ordinary(a)
    requires !Apply(c, cn, sh, a).0.faulty
    ensures Work(c, Apply(c, cn, sh, a).0, Apply(c, cn, sh, a).1) < Work(c, cn, sh)
  {
    hide Local, Work, StageMap, DoIssue, DoFinish, DoAdapter, DoServer, DoHandler,
      CanIssue, CanFinish, CanAdapter, CanServer, CanHandler;
    if Issues(a) {
      IssueWorkDrops(c, cn, sh, a);
    } else if Finishes(a) {
      FinishWorkDrops(c, cn, sh, a);
    } else if ClientAdapter(a) {
      AdapterWorkDrops(c, cn, sh, a);
    } else if InPool(a) {
      PoolWorkDrops(c, cn, sh, a);
    } else if Handlers(a) {
      HandlerWorkDrops(c, cn, sh, a);
    } else if TakesRequest(a) {
      TakeWorkDrops(c, cn, sh, a);
    } else {
      ReplyWorkDrops(c, cn, sh, a);
    }
  }

  /** The work of a connection is its own: steps of others do not add to it. */
  lemma WorkStable(d: ConnId, cn: Conn, sh: Shared, sh': Shared)
    requires Stable(d, sh, sh')
    ensures Work(d, cn, sh') == Work(d, cn, sh)
  {
  }

  // ---- termination of commands

  type Act = (ConnId, Step)

  ghost predicate Path(s: State, acts: seq<Act>, t: State)
    decreases |acts|
  {
    if acts == [] then t == s
    else CanStep(s, acts[0].0, acts[0].1) && Path(Next(s, acts[0].0, acts[0].1), acts[1..], t)
  }

  function StepsOf(acts: seq<Act>, c: ConnId): (n: nat)
  {
    if acts == [] then 0 else Count(acts[0].0 == c) + StepsOf(acts[1..], c)
  }

  lemma {:induction false} PathFaulty(s: State, acts: seq<Act>, t: State, c: ConnId)
    requires Path(s, acts, t) && c in s.conns && s.conns[c].faulty
    ensures c in t.conns && t.conns[c].faulty
    decreases |acts|
  {
    hide Next, CanStep;
    if acts != [] {
      NextOnward(s, acts[0].0, acts[0].1, c);
      NextConns(s, acts[0].0, acts[0].1);
      PathFaulty(Next(s, acts[0].0, acts[0].1), acts[1..], t, c);
    }
  }

  lemma OneStepWork(s: State, d: ConnId, a: Step, c: ConnId)
    requires Inv(s) && CanStep(s, d, a) && c in s.conns && (d == c ==> Ordinary(a))
    requires !Next(s, d, a).conns[c].faulty
    ensures var t := Next(s, d, a);
            c in t.conns && Count(d == c) + Work(c, t.conns[c], t.sh) <= Work(c, s.conns[c], s.sh)
  {
    hide SharedInv, ConnInv, Enabled, Apply, Work, Ordinary;
    if d == c {
      WorkDrops(c, s.conns[c], s.sh, a);
    } else {
      NextKeeps(s, d, a);
      WorkStable(c, s.conns[c], s.sh, Next(s, d, a).sh);
    }
  }

  /** However the steps of other connections are interleaved, a connection whose client
      calls nothing new and that meets no failure takes at most as many steps as it has
      work: no command runs for ever. */
  lemma {:induction false} CommandTerminates(s: State, acts: seq<Act>, t: State, c: ConnId)
    requires Inv(s) && c in s.conns && Path(s, acts, t)
    requires forall k :: 0 <= k < |acts| && acts[k].0 == c ==> Ordinary(acts[k].1)
    requires c in t.conns && !t.conns[c].faulty
    ensures StepsOf(acts, c) + Work(c, t.conns[c], t.sh) <= Work(c, s.conns[c], s.sh)
    decreases |acts|
  {
    hide Inv, Next, CanStep, Work, Ordinary;
    if acts != [] {
      var d, a := acts[0].0, acts[0].1;
      var m := Next(s, d, a);
      NextConns(s, d, a);
      if m.conns[c].faulty { PathFaulty(m, acts[1..], t, c); }
      OneStepWork(s, d, a, c);
      NextKeeps(s, d, a);
      CommandTerminates(m, acts[1..], t, c);
    }
  }

}
