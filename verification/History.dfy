/** Where an answer came from: over whole runs, what a command returns is traced back to
    the one step of the server that decided it. */
module History {
  import opened Wire
  import opened PoolModel
  import opened System
  import opened Invariant
  import opened Induction
  import opened Safety

  /** The answer that the running command will get, once the server has decided it. */
  function Decided(cn: Conn): (p: Option<Response>)
  {
    match cn.sv.stage
    case SOpenRead(size) => Some(OpenRsp(size))
    case SReply(_, p) => Some(p)
    case SPacked(_, p) => Some(p)
    case _ => if cn.trace != [] && cn.trace[|cn.trace| - 1].Replied? then Some(cn.trace[|cn.trace| - 1].rsp) else None
  }

  /** From posting the request to unpacking the answer of `cmd`. */
  predicate During(cn: Conn, cmd: Cmd) { cn.cl.stage == CWait(cmd) || cn.cl.stage == CWoken(cmd) }

  /** The only steps that can decide these answers. */
  predicate Decides(a: Step, p: Response)
  {
    match p
    case OpenRsp(_) => a.SReadFree?
    case CommitRsp(ret) => ret == 0 ==> a == SMsync(true)
    case UnmapRsp(ret) => ret == 0 ==> a.SUnlock?
    case CloseRsp(ret) => a.SDecode? && ret == 0
    case _ => true
  }

  /** Either the answer was decided already, or this step decides it; the client's buffer
      and handle stay as they are. */
  ghost predicate Traced(cn: Conn, r: Conn, a: Step, cmd: Cmd, p: Response)
  {
    During(cn, cmd) && cn.cl.mr == r.cl.mr && (Decided(cn) == Some(p) || Decides(a, p))
  }

  predicate Over(st: CStage) { st.CIdle? || st.CClosed? }

  lemma FailEnds()
    ensures forall cn, cmd :: Over(FailCommand(cn, cmd).cl.stage)
  {
  }

  /** The only step of these that begins the wait for an answer. */
  lemma IssueWaits(c: ConnId, cn: Conn, sh: Shared, a: Step)
    requires CanIssue(c, cn, sh, a)
    requires DoIssue(c, cn, sh, a).0.cl.stage.CWait? || DoIssue(c, cn, sh, a).0.cl.stage.CWoken?
    ensures cn.cl.stage.CPacked?
    ensures DoIssue(c, cn, sh, a).0.sv == cn.sv && DoIssue(c, cn, sh, a).0.trace == cn.trace
  {
    hide PackRequest, ReqOf, RecvRoom, SendRoom, FailCommand;
    FailEnds();
  }

  lemma IssueTraced(c: ConnId, cn: Conn, sh: Shared, a: Step, cmd: Cmd)
    requires Local(cn) && CanIssue(c, cn, sh, a) && During(DoIssue(c, cn, sh, a).0, cmd)
    ensures Decided(DoIssue(c, cn, sh, a).0).None?
  {
    hide Shape, Content, Credits, CmdInv, CanIssue, DoIssue;
    IssueWaits(c, cn, sh, a);
    PackedUndecided(cn);
  }

  lemma PackedUndecided(cn: Conn)
    requires Shape(cn) && Content(cn) && cn.cl.stage.CPacked?
    ensures Decided(cn).None?
  {
    hide GoodTrace, HandlerHas, LastReplied, DecodeRequest;
    assert !Active(cn.sv.stage);
  }

  lemma FinishWaits(c: ConnId, cn: Conn, sh: Shared, a: Step)
    requires CanFinish(c, cn, sh, a)
    requires DoFinish(c, cn, sh, a).0.cl.stage.CWait? || DoFinish(c, cn, sh, a).0.cl.stage.CWoken?
    ensures var r := DoFinish(c, cn, sh, a).0;
            && cn.cl.stage.CWait? && r.cl.stage == CWoken(cn.cl.stage.cmd)
            && r.sv == cn.sv && r.trace == cn.trace && r.cl.mr == cn.cl.mr
  {
    hide UnpackResponse, SendRoom, FailCommand;
    FailEnds();
  }

  lemma FinishTraced(c: ConnId, cn: Conn, sh: Shared, a: Step, cmd: Cmd, p: Response)
    requires CanFinish(c, cn, sh, a)
    requires During(DoFinish(c, cn, sh, a).0, cmd) && Decided(DoFinish(c, cn, sh, a).0) == Some(p)
    ensures Traced(cn, DoFinish(c, cn, sh, a).0, a, cmd, p)
  {
    hide CanFinish, DoFinish;
    FinishWaits(c, cn, sh, a);
  }

  lemma AdapterTraced(c: ConnId, cn: Conn, sh: Shared, a: Step, cmd: Cmd, p: Response)
    requires Shape(cn) && Content(cn) && CanAdapter(c, cn, sh, a)
    requires During(DoAdapter(c, cn, sh, a).0, cmd) && Decided(DoAdapter(c, cn, sh, a).0) == Some(p)
    ensures Traced(cn, DoAdapter(c, cn, sh, a).0, a, cmd, p)
  {
    hide CanAdapter, DoAdapter, Shape, Content;
    AdapterFrame(c, cn, sh, a);
    if cn.cl.sq != [] && cn.cl.sq[0].WrRead? { ReadIsAwaited(cn); }
  }

  lemma ReadIsAwaited(cn: Conn)
    requires Shape(cn) && Content(cn) && cn.cl.sq != [] && cn.cl.sq[0].WrRead?
    ensures cn.cl.stage.CReadWait?
  {
    hide GoodTrace, LastIssued, LastReplied, HandlerHas, Load, Past;
    assert |cn.cl.sq| == 1;
  }

  lemma TakeTraced(c: ConnId, cn: Conn, sh: Shared, a: Step, cmd: Cmd, p: Response)
    requires Content(cn) && CanServer(c, cn, sh, a) && TakesRequest(a)
    requires During(DoServer(c, cn, sh, a).0, cmd) && Decided(DoServer(c, cn, sh, a).0) == Some(p)
    ensures Traced(cn, DoServer(c, cn, sh, a).0, a, cmd, p)
  {
    hide GoodTrace, LastReplied, HandlerHas, DecodeRequest, HandlerView, GetU32, Pending, Arrivals, Reads;
  }

  lemma ServerTraced(c: ConnId, cn: Conn, sh: Shared, a: Step, cmd: Cmd, p: Response)
    requires Content(cn) && CanServer(c, cn, sh, a)
    requires During(DoServer(c, cn, sh, a).0, cmd) && Decided(DoServer(c, cn, sh, a).0) == Some(p)
    ensures Traced(cn, DoServer(c, cn, sh, a).0, a, cmd, p)
  {
    hide PackResponse, DoSPoll, DoSHandle, DoSDecode, DoSRepost,
      GoodTrace, LastReplied, HandlerHas, DecodeRequest, Pending, Arrivals, Reads;
    if TakesRequest(a) { TakeTraced(c, cn, sh, a, cmd, p); }
  }

  lemma PoolTraced(c: ConnId, cn: Conn, sh: Shared, a: Step, cmd: Cmd, p: Response)
    requires CanHandler(c, cn, sh, a) && InPool(a)
    requires During(DoHandler(c, cn, sh, a).0, cmd) && Decided(DoHandler(c, cn, sh, a).0) == Some(p)
    ensures Traced(cn, DoHandler(c, cn, sh, a).0, a, cmd, p)
  {
    hide Store, CanStore, CanMmap, CanRegMr, CanDereg, CanMsync, DoSMmap, DoSRegMr, DoSDereg, DoSMunmap, DoSMsync;
  }

  lemma CallTraced(c: ConnId, cn: Conn, sh: Shared, a: Step, cmd: Cmd, p: Response)
    requires CanHandler(c, cn, sh, a) && !InPool(a)
    requires During(DoHandler(c, cn, sh, a).0, cmd) && Decided(DoHandler(c, cn, sh, a).0) == Some(p)
    ensures Traced(cn, DoHandler(c, cn, sh, a).0, a, cmd, p)
  {
    hide MapBytes, UnmapBytes, Fresh, Mapped, Store, CanStore, DoSLock, DoSUnlock, CanLock, CanUnlock;
  }

  lemma HandlerTraced(c: ConnId, cn: Conn, sh: Shared, a: Step, cmd: Cmd, p: Response)
    requires CanHandler(c, cn, sh, a)
    requires During(DoHandler(c, cn, sh, a).0, cmd) && Decided(DoHandler(c, cn, sh, a).0) == Some(p)
    ensures Traced(cn, DoHandler(c, cn, sh, a).0, a, cmd, p)
  {
    hide CanHandler, DoHandler, During, Decided, Traced;
    if InPool(a) {
      PoolTraced(c, cn, sh, a, cmd, p);
    } else {
      CallTraced(c, cn, sh, a, cmd, p);
    }
  }

  lemma StepTraced(c: ConnId, cn: Conn, sh: Shared, a: Step, cmd: Cmd, p: Response)
    requires Local(cn) && Enabled(c, cn, sh, a)
    requires During(Apply(c, cn, sh, a).0, cmd) && Decided(Apply(c, cn, sh, a).0) == Some(p)
    ensures Traced(cn, Apply(c, cn, sh, a).0, a, cmd, p)
  {
    hide Shape, Content, Credits, CmdInv, Decided, During, Traced, DoIssue, DoFinish, DoAdapter, DoServer, DoHandler,
      CanIssue, CanFinish, CanAdapter, CanServer, CanHandler;
    if Issues(a) {
      IssueTraced(c, cn, sh, a, cmd);
    } else if Finishes(a) {
      FinishTraced(c, cn, sh, a, cmd, p);
    } else if ClientAdapter(a) {
      AdapterTraced(c, cn, sh, a, cmd, p);
    } else if Handlers(a) {
      HandlerTraced(c, cn, sh, a, cmd, p);
    } else {
      ServerTraced(c, cn, sh, a, cmd, p);
    }
  }

  lemma StartUndecided(run: seq<State>, c: ConnId, cmd: Cmd)
    requires IsRun(run) && c in run[0].conns
    ensures !During(run[0].conns[c], cmd)
  {
    var req, rsp :| run[0].conns[c] == NewConn(req, rsp);
  }

  lemma InvLocal(s: State, c: ConnId)
    requires Inv(s) && c in s.conns
    ensures Local(s.conns[c])
  {
    hide SharedInv, Local, Mapping;
  }

  /** One step of any connection, seen from connection c. */
  lemma NextTraced(s: State, d: ConnId, a: Step, c: ConnId, cmd: Cmd, p: Response)
    requires Inv(s) && CanStep(s, d, a) && c in s.conns
    requires During(Next(s, d, a).conns[c], cmd) && Decided(Next(s, d, a).conns[c]) == Some(p)
    ensures During(s.conns[c], cmd) && s.conns[c].cl.mr == Next(s, d, a).conns[c].cl.mr
    ensures Decided(s.conns[c]) == Some(p) || (d == c && Decides(a, p))
  {
    hide Inv, Local, Enabled, Apply, Decided, During;
    if d == c {
      InvLocal(s, c);
      StepTraced(c, s.conns[c], s.sh, a, cmd, p);
    }
  }

  /** In every run, the answer of a command under way was decided by one earlier step of
      its own connection, taken during the same command, with the same buffer and handle. */
  lemma {:induction false} DecidedSince(run: seq<State>, i: nat, c: ConnId, cmd: Cmd, p: Response)
    returns (j: nat, a: Step)
    requires IsRun(run) && i < |run| && c in run[i].conns
    requires During(run[i].conns[c], cmd) && Decided(run[i].conns[c]) == Some(p)
    ensures j < i && CanStep(run[j], c, a) && run[j + 1] == Next(run[j], c, a)
    ensures Decides(a, p)
    ensures During(run[j].conns[c], cmd) && run[j].conns[c].cl.mr == run[i].conns[c].cl.mr
    ensures Decided(run[j + 1].conns[c]) == Some(p)
  {
    hide Inv, Initial, Next, CanStep, Decided, During, Decides;
    if i == 0 {
      StartUndecided(run, c, cmd);
    } else {
      RunInv(run, i - 1);
      assert OneStep(run[i - 1], run[i - 1 + 1]);
      var d, b :| CanStep(run[i - 1], d, b) && run[i] == Next(run[i - 1], d, b);
      NextConns(run[i - 1], d, b);
      NextTraced(run[i - 1], d, b, c, cmd, p);
      if d == c && Decides(b, p) && Decided(run[i - 1].conns[c]) != Some(p) {
        return i - 1, b;
      }
      j, a := DecidedSince(run, i - 1, c, cmd, p);
    }
  }

  /** The buffer of a woken client holds the answer that was decided. */
  lemma WokenDecided(s: State, c: ConnId, cmd: Cmd, p: Response)
    requires Inv(s) && c in s.conns && s.conns[c].cl.stage == CWoken(cmd)
    requires UnpackResponse(RspOpcode(cmd), s.conns[c].cl.rsp) == Accepted(p)
    ensures During(s.conns[c], cmd) && Decided(s.conns[c]) == Some(p)
  {
    hide SharedInv, Mapping, Shape, Credits, GoodTrace;
    InvLocal(s, c);
  }

  /** Whenever rpmem_commit returns 0, an msync succeeded earlier in the run, in that same
      commit, on exactly the mapping the client holds, and the bytes it saw were the bytes
      of the client's buffer. */
  lemma CommitIsSynced(run: seq<State>, i: nat, c: ConnId) returns (j: nat)
    requires IsRun(run) && i < |run| && c in run[i].conns && run[i].conns[c].cl.stage == CWoken(Commit)
    requires UnpackResponse(COMMIT_RSP, run[i].conns[c].cl.rsp) == Accepted(CommitRsp(0))
    ensures j < i && CanStep(run[j], c, SMsync(true)) && run[j + 1] == Next(run[j], c, SMsync(true))
    ensures run[j].conns[c].sv.stage.SBody? && run[j].conns[c].sv.stage.q.CommitReq?
    ensures var q, mr := run[j].conns[c].sv.stage.q, run[i].conns[c].cl.mr;
            && q == CommitReq(mr.len, mr.raddr)
            && Mapped(run[j].sh.mem, q.addr, q.len)
            && ReadBytes(run[j].sh.mem, q.addr, q.len) == mr.local
  {
    hide Inv, Initial, Next, Decided, During, Reachable, Mapped, LiveHandle;
    var a;
    RunInv(run, i);
    WokenDecided(run[i], c, Commit, CommitRsp(0));
    j, a := DecidedSince(run, i, c, Commit, CommitRsp(0));
    PrefixReachable(run, j);
    MsyncSees(run[j], c);
  }

  /** The size that rpmem_open reports was read at one earlier instant of the run: the sum
      of the pooled sizes then, or before or after the critical section then running. */
  lemma OpenSizeWasSeen(run: seq<State>, i: nat, c: ConnId, size: S32) returns (j: nat)
    requires IsRun(run) && i < |run| && c in run[i].conns && run[i].conns[c].cl.stage == CWoken(Open)
    requires UnpackResponse(OPEN_RSP, run[i].conns[c].cl.rsp) == Accepted(OpenRsp(size))
    ensures j < i && PoolInv(run[j].sh.sizes, run[j].sh.pool)
    ensures NearSum(run[j].sh.sizes, run[j].sh.pool, size)
    ensures 0 <= size <= SumSet(run[j].sh.sizes, run[j].sh.sizes.Keys)
  {
    hide Inv, Initial, During, Reachable, PoolInv, NearSum, SumSet, AsInt, CanIssue, CanFinish, CanAdapter, CanHandler,
      DoIssue, DoFinish, DoAdapter, DoHandler;
    var a;
    RunInv(run, i);
    WokenDecided(run[i], c, Open, OpenRsp(size));
    j, a := DecidedSince(run, i, c, Open, OpenRsp(size));
    PrefixReachable(run, j);
    OpenReports(run[j], c);
  }

  /** rpmem_close always unpacks an answer of 0. */
  lemma CloseReturns(run: seq<State>, i: nat, c: ConnId)
    requires IsRun(run) && i < |run| && c in run[i].conns && run[i].conns[c].cl.stage == CWoken(Close)
    ensures UnpackResponse(CLOSE_RSP, run[i].conns[c].cl.rsp) == Accepted(CloseRsp(0))
  {
    hide Inv, Initial, Next, CanStep, Decided, During, UnpackResponse;
    RunInv(run, i);
    var p := CloseUnpacks(run[i], c);
    WokenDecided(run[i], c, Close, p);
    var j, a := DecidedSince(run, i, c, Close, p);
  }

  lemma CloseUnpacks(s: State, c: ConnId) returns (p: Response)
    requires Inv(s) && c in s.conns && s.conns[c].cl.stage == CWoken(Close)
    ensures p.CloseRsp? && UnpackResponse(CLOSE_RSP, s.conns[c].cl.rsp) == Accepted(p)
  {
    hide SharedInv, Mapping, Shape, Credits, CmdInv, GoodTrace, UnpackResponse;
    InvLocal(s, c);
    p := s.conns[c].trace[|s.conns[c].trace| - 1].rsp;
  }
}
