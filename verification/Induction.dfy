/** The invariant is inductive: it holds initially and every step of every connection
    keeps it, hence it holds in every state of every run. */
module Induction {
  import opened Wire
  import opened PoolModel
  import opened System
  import opened Invariant
  import opened SharedSteps
  import LocalSteps

  /** The step of c from `sh` to `r` keeps c's invariant and the shared one, and touches no
      other connection's share. */
  ghost predicate Kept(c: ConnId, sh: Shared, r: (Conn, Shared))
  {
    Local(r.0) && Mapping(c, r.0, r.1) && SharedInv(r.1) && Guarantee(c, sh, r.1)
  }

  lemma IssueKeeps(c: ConnId, cn: Conn, sh: Shared, a: Step)
    requires Local(cn) && Mapping(c, cn, sh) && SharedInv(sh) && CanIssue(c, cn, sh, a)
    ensures Kept(c, sh, DoIssue(c, cn, sh, a))
  {
    hide Local, Mapping, SharedInv, Guarantee, DoBegin, DoCPostRecv, DoCPostWrite, DoCPack, DoCPostSend;
    StableSame(c, sh);
    match a
    case Begin(cmd, alloc) =>
      LocalSteps.BeginKeeps(cn, cmd, alloc);
      SharedSteps.BeginKeeps(c, cn, sh, cmd, alloc);
    case CPostRecv(ok) =>
      LocalSteps.PostRecvKeeps(cn, ok);
      SharedSteps.PostRecvKeeps(c, cn, sh, ok);
    case CPostWrite(ok) =>
      LocalSteps.PostWriteKeeps(cn, ok);
      SharedSteps.PostWriteKeeps(c, cn, sh, ok);
    case CPack =>
      LocalSteps.PackKeeps(cn);
      SharedSteps.PackKeeps(c, cn, sh);
    case CPostSend(ok) =>
      LocalSteps.PostSendKeeps(cn, ok);
      SharedSteps.PostSendKeeps(c, cn, sh, ok);
  }

  lemma WakeKeeps(c: ConnId, cn: Conn, sh: Shared, a: Step)
    requires Local(cn) && Mapping(c, cn, sh) && SharedInv(sh) && CanFinish(c, cn, sh, a) && (a.CWake? || a.CWakeRead?)
    ensures Kept(c, sh, DoFinish(c, cn, sh, a))
  {
    hide Local, Mapping, SharedInv, Guarantee, DoCWake, DoCUnpack, DoCPostRead, DoCWakeRead;
    StableSame(c, sh);
    if a.CWake? {
      LocalSteps.WakeKeeps(cn);
      SharedSteps.WakeKeeps(c, cn, sh);
    } else {
      LocalSteps.WakeReadKeeps(cn);
      SharedSteps.WakeReadKeeps(c, cn, sh);
    }
  }

  lemma FinishKeeps(c: ConnId, cn: Conn, sh: Shared, a: Step)
    requires Local(cn) && Mapping(c, cn, sh) && SharedInv(sh) && CanFinish(c, cn, sh, a)
    ensures Kept(c, sh, DoFinish(c, cn, sh, a))
  {
    hide Local, Mapping, SharedInv, Guarantee, DoCWake, DoCUnpack, DoCPostRead, DoCWakeRead;
    StableSame(c, sh);
    match a
    case CWake => WakeKeeps(c, cn, sh, a);
    case CWakeRead => WakeKeeps(c, cn, sh, a);
    case CUnpack =>
      LocalSteps.UnpackKeeps(cn);
      SharedSteps.UnpackKeeps(c, cn, sh);
    case CPostRead(ok) =>
      LocalSteps.PostReadKeeps(cn, ok);
      SharedSteps.PostReadKeeps(c, cn, sh, ok);
    case AppWrite(data) =>
      LocalSteps.AppWriteKeeps(cn, data);
      SharedSteps.AppWriteKeeps(c, cn, sh, data);
  }

  lemma ExecKeeps(c: ConnId, cn: Conn, sh: Shared)
    requires Local(cn) && Mapping(c, cn, sh) && SharedInv(sh) && CanExec(cn)
    ensures Kept(c, sh, DoCExec(c, cn, sh))
  {
    hide Local, Mapping, SharedInv, Guarantee, DoCExec;
    StableSame(c, sh);
    match cn.cl.sq[0]
    case WrSend =>
      LocalSteps.ExecSendKeeps(c, cn, sh);
      SharedSteps.ExecSendKeeps(c, cn, sh);
    case WrWrite(_, _, _) =>
      LocalSteps.ExecWriteKeeps(c, cn, sh);
      SharedSteps.ExecWriteKeeps(c, cn, sh);
    case WrRead(_, _, _) =>
      LocalSteps.ExecReadKeeps(c, cn, sh);
      SharedSteps.ExecReadKeeps(c, cn, sh);
  }

  lemma AdapterKeeps(c: ConnId, cn: Conn, sh: Shared, a: Step)
    requires Local(cn) && Mapping(c, cn, sh) && SharedInv(sh) && CanAdapter(c, cn, sh, a)
    ensures Kept(c, sh, DoAdapter(c, cn, sh, a))
  {
    hide Local, Mapping, SharedInv, Guarantee, DoCExec, DoCComplete, DoCPoll, DoCFlushRecv, DoCFlushSend;
    StableSame(c, sh);
    match a
    case CExec => ExecKeeps(c, cn, sh);
    case CComplete =>
      if cn.cl.unacked[0].WrRead? { LocalSteps.CompleteReadKeeps(cn); } else { LocalSteps.CompleteOtherKeeps(cn); }
      SharedSteps.CompleteKeeps(c, cn, sh);
    case CPoll =>
      LocalSteps.PollKeeps(cn);
      SharedSteps.PollKeeps(c, cn, sh);
    case Break =>
      LocalSteps.BreakKeeps(cn);
      SharedSteps.BreakKeeps(c, cn, sh);
    case CFlushRecv =>
      LocalSteps.CFlushRecvKeeps(cn);
      SharedSteps.CFlushRecvKeeps(c, cn, sh);
    case CFlushSend =>
      LocalSteps.CFlushSendKeeps(cn);
      SharedSteps.CFlushSendKeeps(c, cn, sh);
  }

  predicate TakesRequest(a: Step)
  {
    a.SPoll? || a.SPollEmpty? || a.SHandle? || a.SDecode? || a.SReadFree? || a.SRepost?
  }

  lemma TakeKeeps(c: ConnId, cn: Conn, sh: Shared, a: Step)
    requires Local(cn) && Mapping(c, cn, sh) && SharedInv(sh) && CanServer(c, cn, sh, a) && TakesRequest(a)
    ensures Kept(c, sh, DoServer(c, cn, sh, a))
  {
    hide Local, Mapping, SharedInv, Guarantee, AsInt,
      DoSHandle, DoSDecode, DoSRepost, DoSPack, DoSPostSend, DoSDeliver;
    StableSame(c, sh);
    match a
    case SPoll(n) =>
      LocalSteps.SPollKeeps(cn, n, cn.sv.drained + n);
      SharedSteps.SPollKeeps(c, cn, sh, n, cn.sv.drained + n);
    case SPollEmpty =>
      LocalSteps.SPollKeeps(cn, 0, 0);
      SharedSteps.SPollKeeps(c, cn, sh, 0, 0);
    case SHandle =>
      LocalSteps.SHandleKeeps(cn);
      SharedSteps.SHandleKeeps(c, cn, sh);
    case SDecode =>
      LocalSteps.SDecodeKeeps(c, cn, sh);
      SharedSteps.SDecodeKeeps(c, cn, sh);
    case SReadFree =>
      LocalSteps.SReadFreeKeeps(cn, AsInt(sh.pool.now.free));
      SharedSteps.SReadFreeKeeps(c, cn, sh, AsInt(sh.pool.now.free));
    case SRepost(ok, rkey, addr) =>
      LocalSteps.SRepostKeeps(cn, ok, rkey, addr);
      SharedSteps.SRepostKeeps(c, cn, sh, ok, rkey, addr);
  }

  lemma ReplyKeeps(c: ConnId, cn: Conn, sh: Shared, a: Step)
    requires Local(cn) && Mapping(c, cn, sh) && SharedInv(sh) && CanServer(c, cn, sh, a) && !TakesRequest(a)
    ensures Kept(c, sh, DoServer(c, cn, sh, a))
  {
    hide Local, Mapping, SharedInv, Guarantee, AsInt,
      DoSHandle, DoSDecode, DoSRepost, DoSPack, DoSPostSend, DoSDeliver;
    StableSame(c, sh);
    match a
    case SPack =>
      LocalSteps.SPackKeeps(cn);
      SharedSteps.SPackKeeps(c, cn, sh);
    case SPostSend(ok) =>
      LocalSteps.SPostSendKeeps(cn, ok);
      SharedSteps.SPostSendKeeps(c, cn, sh, ok);
    case SReturn =>
      LocalSteps.SReturnKeeps(cn);
      SharedSteps.SReturnKeeps(c, cn, sh);
    case SDeliver =>
      LocalSteps.SDeliverKeeps(cn);
      SharedSteps.SDeliverKeeps(c, cn, sh);
    case SAck =>
      LocalSteps.SAckKeeps(cn);
      SharedSteps.SQueueKeeps(c, cn, sh, cn.sv.unacked - 1, Wc(Send, true));
    case SError(op) =>
      LocalSteps.SErrorKeeps(cn, op);
      SharedSteps.SQueueKeeps(c, cn, sh, cn.sv.unacked, Wc(op, false));
  }

  lemma HandlerNext(c: ConnId, cn: Conn, sh: Shared, a: Step, q: Request)
    requires HandlerHas(cn.sv, q) && CanHandler(c, cn, sh, a) && !a.SStore?
    ensures var r := DoHandler(c, cn, sh, a).0;
            && r == cn.(sv := cn.sv.(stage := r.sv.stage))
            && Active(r.sv.stage) && !Unposted(r.sv.stage)
            && InBody(cn.sv.stage)
            && HandlerHas(r.sv, q)
  {
  }

  lemma HandlerLocal(c: ConnId, cn: Conn, sh: Shared, a: Step)
    requires Local(cn) && Mapping(c, cn, sh) && CanHandler(c, cn, sh, a)
    ensures Local(DoHandler(c, cn, sh, a).0)
  {
    hide Local, Mapping;
    if !a.SStore? {
      HandlerRuns(c, cn, sh);
      HandlerNext(c, cn, sh, a, ReqOf(cn.cl.stage.cmd, cn.cl.mr));
      LocalSteps.SMoveKeeps(cn, DoHandler(c, cn, sh, a).0.sv.stage);
    }
  }

  predicate InPool(a: Step) { a.SLock? || a.SStore? || a.SUnlock? }

  lemma PoolKeeps(c: ConnId, cn: Conn, sh: Shared, a: Step)
    requires Local(cn) && Mapping(c, cn, sh) && SharedInv(sh) && CanHandler(c, cn, sh, a) && InPool(a)
    ensures Kept(c, sh, DoHandler(c, cn, sh, a))
  {
    hide Local, Mapping, SharedInv, Guarantee, DoSLock, DoSUnlock, CanLock, CanUnlock;
    HandlerLocal(c, cn, sh, a);
    match a
    case SLock => SharedSteps.SLockKeeps(c, cn, sh);
    case SStore => SharedSteps.SStoreKeeps(c, cn, sh);
    case SUnlock => SharedSteps.SUnlockKeeps(c, cn, sh);
  }

  lemma MapCallKeeps(c: ConnId, cn: Conn, sh: Shared, a: Step)
    requires Local(cn) && Mapping(c, cn, sh) && SharedInv(sh) && CanHandler(c, cn, sh, a)
    requires a.SCheck? || a.SMmap? || a.SRegMr?
    ensures Kept(c, sh, DoHandler(c, cn, sh, a))
  {
    hide Local, Mapping, SharedInv, Guarantee, DoSLock, DoSUnlock, DoSMmap, DoSRegMr,
      DoSDereg, DoSMunmap, DoSMsync, CanLock, CanUnlock, CanMmap, CanRegMr, CanDereg, CanMunmap;
    HandlerLocal(c, cn, sh, a);
    StableSame(c, sh);
    match a
    case SCheck(rkey, addr) => SharedSteps.SCheckKeeps(c, cn, sh, rkey, addr);
    case SMmap(ok, addr, data) => SharedSteps.SMmapKeeps(c, cn, sh, ok, addr, data);
    case SRegMr(ok, rkey) => SharedSteps.SRegMrKeeps(c, cn, sh, ok, rkey);
  }

  lemma HandlerKeeps(c: ConnId, cn: Conn, sh: Shared, a: Step)
    requires Local(cn) && Mapping(c, cn, sh) && SharedInv(sh) && CanHandler(c, cn, sh, a) && !InPool(a)
    ensures Kept(c, sh, DoHandler(c, cn, sh, a))
  {
    hide Local, Mapping, SharedInv, Guarantee, DoSLock, DoSUnlock, DoSMmap, DoSRegMr,
      DoSDereg, DoSMunmap, DoSMsync, CanLock, CanUnlock, CanMmap, CanRegMr, CanDereg, CanMunmap;
    if a.SDereg? || a.SMunmap? || a.SMsync? {
      HandlerLocal(c, cn, sh, a);
      StableSame(c, sh);
      match a
      case SDereg => SharedSteps.SDeregKeeps(c, cn, sh);
      case SMunmap(ok) => SharedSteps.SMunmapKeeps(c, cn, sh, ok);
      case SMsync(ok) => SharedSteps.SMsyncKeeps(c, cn, sh, ok);
    } else {
      MapCallKeeps(c, cn, sh, a);
    }
  }

  /** Every step of connection c keeps the invariant. */
  lemma StepKeeps(c: ConnId, cn: Conn, sh: Shared, a: Step)
    requires ConnInv(c, cn, sh) && SharedInv(sh) && Enabled(c, cn, sh, a)
    ensures var (r, sh') := Apply(c, cn, sh, a);
            ConnInv(c, r, sh') && SharedInv(sh') && Guarantee(c, sh, sh')
  {
    hide Local, Mapping, SharedInv, Guarantee, DoIssue, DoFinish, DoAdapter, DoServer, DoHandler,
      CanIssue, CanFinish, CanAdapter, CanServer, CanHandler;
    if Issues(a) {
      IssueKeeps(c, cn, sh, a);
    } else if Finishes(a) {
      FinishKeeps(c, cn, sh, a);
    } else if ClientAdapter(a) {
      AdapterKeeps(c, cn, sh, a);
    } else if InPool(a) {
      PoolKeeps(c, cn, sh, a);
    } else if Handlers(a) {
      HandlerKeeps(c, cn, sh, a);
    } else if TakesRequest(a) {
      TakeKeeps(c, cn, sh, a);
    } else {
      ReplyKeeps(c, cn, sh, a);
    }
  }

  lemma OtherKeeps(d: ConnId, cn: Conn, sh: Shared, sh': Shared)
    requires ConnInv(d, cn, sh) && Stable(d, sh, sh')
    ensures ConnInv(d, cn, sh')
  {
    hide Shape, Content, Credits, Mapping, Stable;
    Survives(d, cn, sh, sh');
  }

  lemma AllKeep(conns: map<ConnId, Conn>, sh: Shared, c: ConnId, conns': map<ConnId, Conn>, sh': Shared)
    requires forall d :: d in conns ==> ConnInv(d, conns[d], sh)
    requires c in conns && c in conns' && conns' == conns[c := conns'[c]]
    requires ConnInv(c, conns'[c], sh') && Guarantee(c, sh, sh')
    ensures forall d :: d in conns' ==> ConnInv(d, conns'[d], sh')
  {
    hide ConnInv, Stable;
    forall d | d in conns' ensures ConnInv(d, conns'[d], sh') {
      if d != c { OtherKeeps(d, conns[d], sh, sh'); }
    }
  }

  /** Every step of every connection keeps the whole invariant. */
  lemma NextKeeps(s: State, c: ConnId, a: Step)
    requires Inv(s) && CanStep(s, c, a)
    ensures Inv(Next(s, c, a)) && Guarantee(c, s.sh, Next(s, c, a).sh)
  {
    hide ConnInv, SharedInv, Enabled, Apply;
    StepKeeps(c, s.conns[c], s.sh, a);
    var (r, sh') := Apply(c, s.conns[c], s.sh, a);
    AllKeep(s.conns, s.sh, c, s.conns[c := r], sh');
    if !sh'.pool.lock.Unlocked? && sh'.pool.lock.who != c { assert Stable(sh'.pool.lock.who, s.sh, sh'); }
  }

  lemma NewShape(req: Buffer, rsp: Buffer)
    ensures var cn := NewConn(req, rsp);
            LocalSteps.Resting(cn) && Shape(cn) && Credits(cn) && CmdInv(cn.cl) && GoodTrace(cn.trace)
  {
    hide Zeroed;
    var cn := NewConn(req, rsp);
    assert Pending(cn.cl) == [] && Load(cn) == 0;
  }

  lemma NewLocal(req: Buffer, rsp: Buffer)
    ensures Local(NewConn(req, rsp))
  {
    hide Shape, Credits, CmdInv, Content, LocalSteps.Resting, GoodTrace, Zeroed;
    NewShape(req, rsp);
    LocalSteps.RestContent(NewConn(req, rsp));
  }

  lemma NewConnInv(c: ConnId, req: Buffer, rsp: Buffer, sh: Shared)
    requires Unheld(c, sh) && sh.pool.lock.Unlocked?
    ensures ConnInv(c, NewConn(req, rsp), sh)
  {
    hide Local, Zeroed;
    NewLocal(req, rsp);
  }

  lemma InitialInv(s: State)
    requires Initial(s)
    ensures Inv(s)
  {
    InitialPool(s.sh.sizes, s.sh.pool.now.list);
    forall c | c in s.conns ensures ConnInv(c, s.conns[c], s.sh) {
      var req, rsp :| s.conns[c] == NewConn(req, rsp);
      NewConnInv(c, req, rsp, s.sh);
    }
  }

  /** The invariant holds in every state of every run. */
  lemma {:induction false} RunInv(run: seq<State>, i: nat)
    requires IsRun(run) && i < |run|
    ensures Inv(run[i])
  {
    if i == 0 {
      InitialInv(run[0]);
    } else {
      RunInv(run, i - 1);
      assert OneStep(run[i - 1], run[i - 1 + 1]);
      var c, a :| CanStep(run[i - 1], c, a) && run[i] == Next(run[i - 1], c, a);
      NextKeeps(run[i - 1], c, a);
    }
  }
}
