/** A command can return: from every reachable state in which nothing has failed, the
    environment grants what the command needs and it is not too late for the request, some
    path ends with the command returned and nothing failed. */
module Return {
  import opened Wire
  import opened PoolModel
  import opened System
  import opened Invariant
  import opened SharedSteps
  import opened Induction
  import opened Safety
  import opened Termination
  import opened Drain
  import opened Progress
  import LocalSteps

  // ---- what a map needs

  /** mmap finds room at the address, and the key is free. */
  ghost predicate Grants(sh: Shared, len: Len, e: Env)
  {
    && 0 < len && LOWEST <= e.addr && e.addr + len <= TWO64 && |e.data| == len
    && Fresh(sh.mem, e.addr, len)
    && e.rkey !in sh.mrs
  }

  /** When the running critical section is over, the list holds a resource that fits. */
  ghost predicate WillFit(sh: Shared, len: Len)
  {
    PoolInv(sh.sizes, sh.pool)
    && exists r :: r in After(sh.sizes, sh.pool).list && r in sh.sizes && sh.sizes[r] > len
  }

  ghost predicate WillHold(c: ConnId, sh: Shared)
  {
    PoolInv(sh.sizes, sh.pool) && c in After(sh.sizes, sh.pool).owner
  }

  ghost predicate Offers(sh: Shared, len: Len, e: Env) { WillFit(sh, len) && Grants(sh, len, e) }

  /** A running map handler has got, or will be given, what is left for it to need. */
  ghost predicate HandlerHope(c: ConnId, st: SStage, sh: Shared, e: Env, len: Len)
  {
    match st
    case SDispatched(_) => Offers(sh, len, e)
    case SDecoded(_, _) => Offers(sh, len, e)
    case SBody(_, _) => Offers(sh, len, e)
    case SMapLocked(_) => WillHold(c, sh) && Grants(sh, len, e)
    case SMapDone(_, _) => c in sh.pool.now.owner && Grants(sh, len, e)
    case SMmapped(_, _, _, ok) => ok && e.rkey !in sh.mrs
    case _ => !NoMr(c, sh)
  }

  ghost predicate WaitHope(c: ConnId, cn: Conn, sh: Shared, e: Env, len: Len)
  {
    if Active(cn.sv.stage) then HandlerHope(c, cn.sv.stage, sh, e, len)
    else if Asked(cn) then Offers(sh, len, e)
    else !NoMr(c, sh)
  }

  /** The same for the command of a connection; only a map needs anything. */
  ghost predicate MapHope(c: ConnId, cn: Conn, sh: Shared, e: Env)
  {
    match cn.cl.stage
    case CBegun(cmd) => cmd.Map? ==> Offers(sh, cmd.len, e)
    case CRecvd(cmd) => cmd.Map? ==> Offers(sh, cmd.len, e)
    case CPacked(cmd) => cmd.Map? ==> Offers(sh, cmd.len, e)
    case CWait(cmd) => cmd.Map? ==> WaitHope(c, cn, sh, e, cmd.len)
    case CWoken(cmd) => cmd.Map? ==> !NoMr(c, sh)
    case CMapDec => !NoMr(c, sh)
    case CReadWait => !NoMr(c, sh)
    case _ => true
  }

  /** The command that is running. */
  function CmdOf(cl: Client): (cmd: Cmd)
  {
    match cl.stage
    case CBegun(cmd) => cmd
    case CRecvd(cmd) => cmd
    case CPacked(cmd) => cmd
    case CWait(cmd) => cmd
    case CWoken(cmd) => cmd
    case CWrote => Commit
    case CMapDec => Map(cl.mr.len)
    case CReadWait => Map(cl.mr.len)
    case CIdle | CClosed => Close
  }

  predicate Success(p: Response)
  {
    match p
    case UnmapRsp(ret) => ret == 0
    case CommitRsp(ret) => ret == 0
    case CloseRsp(ret) => ret == 0
    case _ => true
  }

  predicate LastGot(tr: seq<Event>) { tr != [] && tr[|tr| - 1].Got? && Success(tr[|tr| - 1].rsp) }

  predicate LastSuccess(tr: seq<Event>) { tr != [] && tr[|tr| - 1].Replied? && Success(tr[|tr| - 1].rsp) }

  /** The server has answered the running command and the client has not unpacked it. */
  predicate Answered(cn: Conn) { cn.sv.sq > 0 || Pending(cn.cl) != [] }

  /** The answer to the command, as far as it is known, reports no error. */
  predicate Promising(cn: Conn)
  {
    match cn.cl.stage
    case CWait(_) =>
      && (cn.sv.stage.SReply? ==> Success(cn.sv.stage.rsp))
      && (cn.sv.stage.SPacked? ==> Success(cn.sv.stage.rsp))
      && (Answered(cn) ==> LastSuccess(cn.trace))
    case CWoken(_) => LastSuccess(cn.trace)
    case CMapDec => LastGot(cn.trace)
    case CReadWait => LastGot(cn.trace)
    case _ => true
  }

  ghost predicate Hope(c: ConnId, cn: Conn, sh: Shared, e: Env) { MapHope(c, cn, sh, e) && Promising(cn) }

  /** The command has returned, and its answer reports no error. */
  predicate Returned(cmd: Cmd, cn: Conn)
  {
    var cl := cn.cl;
    && LastGot(cn.trace)
    && match cmd
       case Open => cl.stage.CIdle? && !cl.mapped && !cl.gaveUp
       case Close => cl.stage.CClosed?
       case Map(len) => cl.stage.CIdle? && cl.mapped && cl.mr.len == len
       case Unmap => cl.stage.CIdle? && !cl.mapped && !cl.gaveUp
       case Commit => cl.stage.CIdle? && cl.mapped
  }

  /** After a step: nothing failed, and the command has returned or still can. */
  ghost predicate OnTrack(c: ConnId, cn: Conn, r: (Conn, Shared), e: Env)
  {
    && !r.0.faulty
    && if Busy(r.0) then Hope(c, r.0, r.1, e) && CmdOf(r.0.cl) == CmdOf(cn.cl) else Returned(CmdOf(cn.cl), r.0)
  }

  // ---- the steps of the client thread

  lemma PostSendOnTrack(c: ConnId, cn: Conn, sh: Shared, e: Env)
    requires Local(cn) && !cn.faulty && Hope(c, cn, sh, e) && cn.cl.stage.CPacked?
    ensures OnTrack(c, cn, (DoCPostSend(cn, true), sh), e)
  {
    hide Shape, Content, Credits, CmdInv, Offers, NoMr, Arrivals, Posts;
    LocalSteps.ShapeRests(cn);
    assert EndsSend(cn.cl.sq + [WrSend]);
  }

  lemma IssueOnTrack(c: ConnId, cn: Conn, sh: Shared, e: Env, a: Step)
    requires Local(cn) && !cn.faulty && Hope(c, cn, sh, e) && CanIssue(c, cn, sh, a)
    requires a == CPostRecv(true) || a == CPostWrite(true) || a == CPack || a == CPostSend(true)
    ensures OnTrack(c, cn, DoIssue(c, cn, sh, a), e)
  {
    hide Local, Offers, NoMr, PackRequest, ReqOf, DoCPostSend, RecvRoom, SendRoom;
    if a.CPostSend? { PostSendOnTrack(c, cn, sh, e); }
  }

  lemma UnpackOnTrack(c: ConnId, cn: Conn, sh: Shared, e: Env)
    requires Local(cn) && !cn.faulty && Hope(c, cn, sh, e) && cn.cl.stage.CWoken?
    ensures OnTrack(c, cn, (DoCUnpack(cn), sh), e)
  {
    hide Shape, Credits, GoodTrace, HandlerHas, NoMr, GetU32, GetU64;
  }

  lemma FinishOnTrack(c: ConnId, cn: Conn, sh: Shared, e: Env, a: Step)
    requires Local(cn) && !cn.faulty && Hope(c, cn, sh, e) && CanFinish(c, cn, sh, a)
    requires a == CWake || a == CUnpack || a == CPostRead(true) || a == CWakeRead
    ensures OnTrack(c, cn, DoFinish(c, cn, sh, a), e)
  {
    hide Content, Credits, NoMr, DoCUnpack, Arrivals, Reads, Posts, Offers, HandlerHope;
    if a.CUnpack? { UnpackOnTrack(c, cn, sh, e); }
  }

  // ---- the steps of the client's adapter

  lemma ReadAccess(c: ConnId, cn: Conn, sh: Shared)
    requires ConnInv(c, cn, sh) && cn.cl.sq != [] && cn.cl.sq[0].WrRead? && !NoMr(c, sh)
    ensures cn.cl.stage.CReadWait? && |cn.cl.mr.local| == cn.cl.sq[0].len
    ensures cn.cl.sq[0].len == cn.cl.mr.len && Access(sh, c, cn.cl.sq[0].rkey, cn.cl.sq[0].addr, cn.cl.sq[0].len)
  {
    hide Credits, GoodTrace, LastIssued, LastReplied, HandlerHas;
    assert EndsRead(cn.cl.sq) && |cn.cl.sq| == 1;
  }

  lemma WriteAccess(c: ConnId, cn: Conn, sh: Shared)
    requires ConnInv(c, cn, sh) && !cn.faulty && cn.cl.sq != [] && cn.cl.sq[0].WrWrite?
    ensures Committing(cn.cl.stage) && |cn.cl.mr.local| == cn.cl.sq[0].len
    ensures Access(sh, c, cn.cl.sq[0].rkey, cn.cl.sq[0].addr, cn.cl.sq[0].len)
  {
    hide Credits, Content, StageMap;
    QueuedWrite(cn);
  }

  lemma ExecOnTrack(c: ConnId, cn: Conn, sh: Shared, e: Env)
    requires ConnInv(c, cn, sh) && !cn.faulty && Hope(c, cn, sh, e) && Busy(cn) && CanExec(cn)
    ensures OnTrack(c, cn, DoCExec(c, cn, sh), e)
  {
    hide Local, Mapping, NoMr, Access, WriteBytes, Offers, HandlerHope, Posts, LastSuccess, LastGot;
    match cn.cl.sq[0]
    case WrSend => SendHope(c, cn, sh, e);
    case WrRead(_, _, _) =>
      ReadStage(cn);
      ReadAccess(c, cn, sh);
    case WrWrite(_, _, _) => WriteAccess(c, cn, sh);
  }

  lemma ReadStage(cn: Conn)
    requires Local(cn) && cn.cl.sq != [] && cn.cl.sq[0].WrRead?
    ensures cn.cl.stage.CReadWait?
  {
    hide Credits, CmdInv, GoodTrace, LastIssued, LastReplied, HandlerHas;
    assert EndsRead(cn.cl.sq);
  }

  lemma SendHope(c: ConnId, cn: Conn, sh: Shared, e: Env)
    requires ConnInv(c, cn, sh) && !cn.faulty && Hope(c, cn, sh, e) && CanExec(cn) && cn.cl.sq[0].WrSend?
    ensures OnTrack(c, cn, DoCExec(c, cn, sh), e)
  {
    hide Mapping, Local, Posts, Offers, HandlerHope, Before;
    SendHead(cn);
    AskedLoad(cn);
    ArrivalsAppend(cn.sv.cq, Wc(Recv, true));
  }

  lemma SendHead(cn: Conn)
    requires Local(cn) && cn.cl.sq != [] && cn.cl.sq[0].WrSend?
    ensures cn.cl.sq == [WrSend] && cn.cl.stage.CWait?
  {
    hide Credits, CmdInv, GoodTrace, LastIssued, LastReplied, HandlerHas;
  }

  lemma AdapterOnTrack(c: ConnId, cn: Conn, sh: Shared, e: Env, a: Step)
    requires ConnInv(c, cn, sh) && !cn.faulty && Hope(c, cn, sh, e) && Busy(cn) && CanAdapter(c, cn, sh, a)
    requires a == CExec || a == CComplete || a == CPoll
    ensures OnTrack(c, cn, DoAdapter(c, cn, sh, a), e)
  {
    hide CmdInv, Shape, Content, Credits, Mapping, DoCExec, Posts, NoMr, Offers, HandlerHope, LastSuccess, LastGot;
    match a
    case CExec => ExecOnTrack(c, cn, sh, e);
    case CPoll => LocalSteps.PollPending(cn);
    case CComplete =>
      LocalSteps.CompletePending(cn);
      if cn.cl.stage.CWait? { WaitsNoRead(cn); }
  }

  // ---- the steps of the server around a handler

  lemma TakeOnTrack(c: ConnId, cn: Conn, sh: Shared, e: Env, a: Step)
    requires ConnInv(c, cn, sh) && !cn.faulty && Hope(c, cn, sh, e) && Waiting(cn.cl.stage) && CanServer(c, cn, sh, a)
    requires a.SPoll? || a.SHandle? || a.SDecode? || a.SReadFree? || a == SRepost(true, 0, 0)
    ensures OnTrack(c, cn, DoServer(c, cn, sh, a), e)
  {
    hide Mapping, CmdInv, Shape, Credits, GoodTrace, LastIssued, LastReplied, NoMr, Offers, Posts, GetU32, GetU64;
    if a.SDecode? { DecodeKnown(cn); }
  }

  lemma DeliverOnTrack(c: ConnId, cn: Conn, sh: Shared, e: Env)
    requires Local(cn) && !cn.faulty && Hope(c, cn, sh, e) && CanDeliver(cn)
    ensures OnTrack(c, cn, (DoSDeliver(cn), sh), e)
  {
    hide CmdInv, Credits, GoodTrace, LastIssued, LastReplied, HandlerHas, NoMr, Offers, HandlerHope, LastSuccess,
      Arrivals, Reads;
    PostsAppend(cn.cl.cq, Wc(Recv, true));
  }

  lemma ReplyLoad(cn: Conn)
    requires Local(cn) && Active(cn.sv.stage)
    ensures cn.cl.stage.CWait? && !Asked(cn)
  {
    hide CmdInv, Credits, GoodTrace, LastIssued, LastReplied, HandlerHas;
  }

  lemma ReplyOnTrack(c: ConnId, cn: Conn, sh: Shared, e: Env, a: Step)
    requires ConnInv(c, cn, sh) && !cn.faulty && Hope(c, cn, sh, e) && Waiting(cn.cl.stage) && CanServer(c, cn, sh, a)
    requires a == SPack || a == SPostSend(true) || a == SReturn || a == SDeliver
    ensures OnTrack(c, cn, DoServer(c, cn, sh, a), e)
  {
    hide Mapping, Local, NoMr, Offers, PackResponse, DoSDeliver, Arrivals, Posts;
    if a.SDeliver? {
      DeliverOnTrack(c, cn, sh, e);
    } else if Active(cn.sv.stage) {
      ReplyLoad(cn);
    }
  }

  // ---- the steps of a handler

  lemma PoolLists(sizes: Sizes, s: Shot)
    requires Consistent(sizes, s)
    ensures Listed(sizes, s.list)
  {
  }

  lemma FitIsChosen(sh: Shared, c: ConnId, len: Len)
    requires WillFit(sh, len) && sh.pool.lock.Unlocked? && c !in sh.pool.now.owner
    ensures WillHold(c, sh.(pool := LockToTake(sh.pool, c, len)))
  {
    hide Consistent, Take, Give, Listed, Chosen;
    PoolLists(sh.sizes, sh.pool.now);
    TakeFits(sh.sizes, sh.pool.now, c, len);
  }

  lemma PoolHope(c: ConnId, cn: Conn, sh: Shared, e: Env, len: Len, a: Step)
    requires Handling(c, cn, sh, Map(len)) && HandlerHope(c, cn.sv.stage, sh, e, len)
    requires CanHandler(c, cn, sh, a) && InPool(a)
    ensures var (r, sh') := DoHandler(c, cn, sh, a); HandlerHope(c, r.sv.stage, sh', e, len)
  {
    hide PoolInv, Consistent, Fresh, NoMr, Take, Give, CanStore, Store;
    match a
    case SLock => FitIsChosen(sh, c, len);
    case SStore => StoreKeepsPool(sh.sizes, sh.pool);
    case SUnlock => UnlockIsAtomic(sh.sizes, sh.pool);
  }

  lemma CallHope(c: ConnId, cn: Conn, sh: Shared, e: Env, len: Len, a: Step)
    requires Handling(c, cn, sh, Map(len)) && HandlerHope(c, cn.sv.stage, sh, e, len)
    requires !InPool(a) && InBody(cn.sv.stage) && a == HandlerAdvance(c, cn, sh, e) && CanHandler(c, cn, sh, a)
    ensures var (r, sh') := DoHandler(c, cn, sh, a); HandlerHope(c, r.sv.stage, sh', e, len)
    ensures a == SMmap(true, e.addr, e.data) || a == SRegMr(true, e.rkey)
  {
    hide PoolInv, Offers, MapBytes, Fresh;
    if a.SRegMr? {
      var sh' := DoHandler(c, cn, sh, a).1;
      assert e.rkey in sh'.mrs && sh'.mrs[e.rkey].pd == c;
    }
  }

  lemma CallSucceeds(c: ConnId, cn: Conn, sh: Shared, e: Env, a: Step)
    requires CanHandler(c, cn, sh, a) && a == HandlerAdvance(c, cn, sh, e)
    ensures var st := DoHandler(c, cn, sh, a).0.sv.stage;
            !st.SPacked? && (st.SReply? ==> Success(st.rsp))
  {
    hide MapBytes, UnmapBytes, Fresh, Mapped, Store, CanStore;
  }

  lemma HandlerOnTrack(c: ConnId, cn: Conn, sh: Shared, e: Env, a: Step)
    requires ConnInv(c, cn, sh) && !cn.faulty && Hope(c, cn, sh, e) && CanHandler(c, cn, sh, a)
    requires a == HandlerAdvance(c, cn, sh, e)
    ensures OnTrack(c, cn, DoHandler(c, cn, sh, a), e)
  {
    hide Local, Mapping, Handling, HandlerHope, CanHandler, DoHandler, HandlerAdvance, Success, LastSuccess;
    HandlerInBody(c, cn, sh, a);
    HandlerRuns(c, cn, sh);
    HandlerStage(c, cn, sh, a);
    HandlerActive(c, cn, sh, a);
    CallSucceeds(c, cn, sh, e, a);
    WaitsHere(c, cn, sh, cn.cl.stage.cmd);
    if cn.cl.stage.cmd.Map? {
      if InPool(a) {
        PoolHope(c, cn, sh, e, cn.cl.stage.cmd.len, a);
      } else {
        CallHope(c, cn, sh, e, cn.cl.stage.cmd.len, a);
      }
    }
  }

  lemma WaitsHere(c: ConnId, cn: Conn, sh: Shared, cmd: Cmd)
    requires Handling(c, cn, sh, cmd)
    ensures cn.cl.stage == CWait(cmd) && Active(cn.sv.stage) && !Answered(cn)
  {
    hide HandlerHas, HandlerMap;
  }

  // ---- the next step of a command keeps it on track

  /** The forms that the next step of a command takes. */
  predicate Clean(c: ConnId, cn: Conn, sh: Shared, e: Env, a: Step)
  {
    || a == CPostRecv(true) || a == CPostWrite(true) || a == CPack || a == CPostSend(true)
    || a == CWake || a == CUnpack || a == CPostRead(true) || a == CWakeRead
    || a == CExec || a == CComplete || a == CPoll
    || ((a.SPoll? || a.SHandle? || a.SDecode? || a.SReadFree? || a == SRepost(true, 0, 0)) && Waiting(cn.cl.stage))
    || ((a == SPack || a == SPostSend(true) || a == SReturn || a == SDeliver) && Waiting(cn.cl.stage))
    || (Handlers(a) && a == HandlerAdvance(c, cn, sh, e))
  }

  lemma AdvanceClean(c: ConnId, cn: Conn, sh: Shared, e: Env)
    requires Busy(cn)
    ensures Clean(c, cn, sh, e, Advance(c, cn, sh, e))
  {
    hide CanMmap, CanRegMr, SectionDone, SendRoom, Before, Arrivals;
  }

  lemma ServerOnTrack(c: ConnId, cn: Conn, sh: Shared, e: Env, a: Step)
    requires ConnInv(c, cn, sh) && !cn.faulty && Hope(c, cn, sh, e) && Busy(cn)
    requires Clean(c, cn, sh, e, a) && CanServer(c, cn, sh, a)
    ensures OnTrack(c, cn, DoServer(c, cn, sh, a), e)
  {
    hide ConnInv, Hope, OnTrack, HandlerAdvance, DoServer, CanServer;
    if TakesRequest(a) {
      ServesNoHandler(c, cn, sh, a);
      TakeOnTrack(c, cn, sh, e, a);
    } else {
      ServesNoHandler(c, cn, sh, a);
      ReplyOnTrack(c, cn, sh, e, a);
    }
  }

  lemma ServesNoHandler(c: ConnId, cn: Conn, sh: Shared, a: Step)
    requires CanServer(c, cn, sh, a)
    ensures !Issues(a) && !Finishes(a) && !ClientAdapter(a) && !Handlers(a)
  {
  }

  lemma ClientOnTrack(c: ConnId, cn: Conn, sh: Shared, e: Env, a: Step)
    requires ConnInv(c, cn, sh) && !cn.faulty && Hope(c, cn, sh, e) && Busy(cn)
    requires Clean(c, cn, sh, e, a) && Enabled(c, cn, sh, a) && (Issues(a) || Finishes(a))
    ensures OnTrack(c, cn, Apply(c, cn, sh, a), e)
  {
    hide Local, Mapping, Hope, OnTrack, HandlerAdvance, DoIssue, DoFinish, CanIssue, CanFinish;
    if Issues(a) {
      IssueOnTrack(c, cn, sh, e, a);
    } else {
      FinishOnTrack(c, cn, sh, e, a);
    }
  }

  lemma AdvanceOnTrack(c: ConnId, cn: Conn, sh: Shared, e: Env, a: Step)
    requires ConnInv(c, cn, sh) && !cn.faulty && Hope(c, cn, sh, e) && Busy(cn)
    requires Clean(c, cn, sh, e, a) && Enabled(c, cn, sh, a)
    ensures OnTrack(c, cn, Apply(c, cn, sh, a), e)
  {
    hide ConnInv, Hope, OnTrack, HandlerAdvance, DoIssue, DoFinish, DoAdapter, DoServer, DoHandler,
      CanIssue, CanFinish, CanAdapter, CanServer, CanHandler;
    if Issues(a) || Finishes(a) {
      ClientOnTrack(c, cn, sh, e, a);
    } else if ClientAdapter(a) {
      AdapterOnTrack(c, cn, sh, e, a);
    } else if Handlers(a) {
      HandlerOnTrack(c, cn, sh, e, a);
    } else {
      ServerOnTrack(c, cn, sh, e, a);
    }
  }

  /** A poll that the next step of a command makes returns the request, or is short. */
  lemma AdvancePolls(c: ConnId, cn: Conn, sh: Shared, e: Env)
    requires Busy(cn)
    ensures var a := Advance(c, cn, sh, e);
            && !a.SAck? && !a.SPollEmpty?
            && (a.SPoll? ==> a.n == if Before(cn.sv.cq) < BATCH then Before(cn.sv.cq) + 1 else 1)
  {
    hide CanMmap, CanRegMr, SectionDone, SendRoom, Before, Arrivals;
  }

  /** It does not get too late while the command goes on. */
  lemma StaysInTime(c: ConnId, cn: Conn, sh: Shared, e: Env)
    requires ConnInv(c, cn, sh) && Busy(cn) && !Late(cn)
    requires var a := Advance(c, cn, sh, e);
             Ordinary(a) && Enabled(c, cn, sh, a) && !Apply(c, cn, sh, a).0.faulty
    ensures !Late(Apply(c, cn, sh, Advance(c, cn, sh, e)).0)
  {
    hide ConnInv, Apply, Advance, CanIssue, CanFinish, CanAdapter, CanHandler, ToCome, Arrivals, Before, Ordinary;
    var a := Advance(c, cn, sh, e);
    AdvancePolls(c, cn, sh, e);
    if Unpolled(cn) {
      UnpolledStep(c, cn, sh, a);
    } else if Asked(cn) {
      PolledStep(c, cn, sh, a);
    } else {
      NotAsked(c, cn, sh, a);
    }
  }

  /** The commands that never touch the shared state. */
  lemma OpenShared(c: ConnId, cn: Conn, sh: Shared, a: Step)
    requires ConnInv(c, cn, sh) && !cn.faulty && Busy(cn) && CmdOf(cn.cl).Open? && Enabled(c, cn, sh, a)
    ensures Apply(c, cn, sh, a).1 == sh
  {
    hide Local, Mapping, DoIssue, DoFinish, DoAdapter, DoServer, DoHandler,
      CanIssue, CanFinish, CanAdapter, CanServer, CanHandler;
    if Issues(a) {
      IssueServer(c, cn, sh, a);
    } else if Finishes(a) {
      FinishServer(c, cn, sh, a);
    } else if ClientAdapter(a) {
      OpenAdapter(c, cn, sh, a);
    } else if Handlers(a) {
      HandlerInBody(c, cn, sh, a);
      OpenHasNoBody(c, cn, sh);
    } else {
      ServerQuiet(c, cn, sh, a);
    }
  }

  lemma OpenHasNoBody(c: ConnId, cn: Conn, sh: Shared)
    requires Local(cn) && Mapping(c, cn, sh) && CmdOf(cn.cl).Open?
    ensures !InBody(cn.sv.stage) && !cn.sv.stage.SUnmapped?
  {
    hide Local, Mapping;
    if Active(cn.sv.stage) { HandlerRuns(c, cn, sh); }
  }

  lemma OpenAdapter(c: ConnId, cn: Conn, sh: Shared, a: Step)
    requires Local(cn) && !cn.faulty && CmdOf(cn.cl).Open? && CanAdapter(c, cn, sh, a)
    ensures DoAdapter(c, cn, sh, a).1 == sh
  {
    hide Access, WriteBytes, Load, Past, Content, Credits;
  }

  // ---- waiting for the lock

  /** What a wait for the lock leaves as it was. */
  ghost predicate Freed(s: State, t: State)
  {
    && Inv(t) && t.sh.pool.lock.Unlocked?
    && t.conns.Keys == s.conns.Keys
    && (forall c :: c in s.conns && !Holds(s.sh.pool, c) ==> t.conns[c] == s.conns[c])
    && t.sh == s.sh.(pool := t.sh.pool)
    && PoolInv(s.sh.sizes, s.sh.pool)
    && t.sh.pool.now == After(s.sh.sizes, s.sh.pool)
  }

  predicate InLock(a: Step) { a.SStore? || a.SUnlock? }

  lemma StoreNext(s: State)
    requires Inv(s) && !s.sh.pool.lock.Unlocked? && !SectionDone(s.sh.pool)
    ensures CanStep(s, s.sh.pool.lock.who, SStore) && Inv(Next(s, s.sh.pool.lock.who, SStore))
    ensures PoolInv(s.sh.sizes, s.sh.pool) && CanStore(s.sh.sizes, s.sh.pool)
    ensures Next(s, s.sh.pool.lock.who, SStore) == s.(sh := s.sh.(pool := Store(s.sh.sizes, s.sh.pool)))
  {
    hide ConnInv, SharedInv, Store, CanStore;
    HolderAdvances(s);
    NextKeeps(s, s.sh.pool.lock.who, SStore);
    SharedPool(s.sh);
  }

  lemma UnlockNext(s: State)
    requires Inv(s) && !s.sh.pool.lock.Unlocked? && SectionDone(s.sh.pool)
    ensures var d := s.sh.pool.lock.who; CanStep(s, d, SUnlock) && Freed(s, Next(s, d, SUnlock))
  {
    hide ConnInv, SharedInv, Consistent, PoolInv, After;
    var d := s.sh.pool.lock.who;
    HolderAdvances(s);
    NextKeeps(s, d, SUnlock);
    NextConns(s, d, SUnlock);
    SharedPool(s.sh);
    UnlockIsAtomic(s.sh.sizes, s.sh.pool);
  }

  /** The holder of the lock can always leave its section, and nobody else need move. */
  lemma {:induction false} LockFrees(s: State) returns (acts: seq<Act>, t: State)
    requires Inv(s) && !s.sh.pool.lock.Unlocked?
    ensures Path(s, acts, t) && Freed(s, t)
    ensures forall k :: 0 <= k < |acts| ==> InLock(acts[k].1)
    ensures forall k :: 0 <= k < |acts| ==> acts[k].0 == s.sh.pool.lock.who
    decreases SectionWork(s.sh.pool)
  {
    hide Inv, Next, CanStep, PoolInv, After, SectionDone, CanStore, Store;
    var d := s.sh.pool.lock.who;
    if SectionDone(s.sh.pool) {
      UnlockNext(s);
      acts, t := [(d, SUnlock)], Next(s, d, SUnlock);
      assert acts[1..] == [];
    } else {
      StoreNext(s);
      var m := Next(s, d, SStore);
      StoreStays(s.sh);
      var rest;
      rest, t := LockFrees(m);
      acts := [(d, SStore)] + rest;
      assert acts[1..] == rest;
    }
  }

  lemma StoreStays(sh: Shared)
    requires PoolInv(sh.sizes, sh.pool) && CanStore(sh.sizes, sh.pool)
    ensures var p := Store(sh.sizes, sh.pool);
            && PoolInv(sh.sizes, p) && After(sh.sizes, p) == After(sh.sizes, sh.pool)
            && !p.lock.Unlocked? && p.lock.who == sh.pool.lock.who && SectionWork(p) < SectionWork(sh.pool)
  {
    hide PoolInv, After;
    StoreKeepsPool(sh.sizes, sh.pool);
  }

  lemma {:induction false} PathConcat(s: State, acts: seq<Act>, m: State, more: seq<Act>, t: State)
    requires Path(s, acts, m) && Path(m, more, t)
    ensures Path(s, acts + more, t)
    decreases |acts|
  {
    hide Next, CanStep;
    if acts == [] {
      assert acts + more == more;
    } else {
      PathConcat(Next(s, acts[0].0, acts[0].1), acts[1..], m, more, t);
      assert (acts + more)[1..] == acts[1..] + more;
    }
  }

  lemma OffersFreed(s: State, t: State, len: Len, e: Env)
    requires Freed(s, t) && Offers(s.sh, len, e)
    ensures Offers(t.sh, len, e)
  {
    hide ConnInv, MrSound, Consistent, Fresh, Take, Give;
    SharedPool(t.sh);
  }

  lemma LockHope(s: State, t: State, c: ConnId, e: Env)
    requires Freed(s, t) && c in s.conns && !Holds(s.sh.pool, c)
    requires Hope(c, s.conns[c], s.sh, e) && Advance(c, s.conns[c], s.sh, e).SLock?
    requires Inv(s) && Busy(s.conns[c])
    ensures t.conns[c] == s.conns[c] && Hope(c, t.conns[c], t.sh, e) && Advance(c, t.conns[c], t.sh, e).SLock?
    ensures Work(c, t.conns[c], t.sh) == Work(c, s.conns[c], s.sh)
  {
    hide ConnInv, SharedInv, Promising, PoolInv, After, Offers, Fresh, ClientQueues, ServerQueues, SectionWork;
    LockStage(c, s.conns[c], s.sh, e);
    if s.conns[c].cl.stage.CWait? && s.conns[c].cl.stage.cmd.Map? {
      if Offers(s.sh, s.conns[c].cl.stage.cmd.len, e) { OffersFreed(s, t, s.conns[c].cl.stage.cmd.len, e); }
    }
  }

  /** A handler asks for the lock at the start of a map or at the end of an unmap. */
  lemma LockStage(c: ConnId, cn: Conn, sh: Shared, e: Env)
    requires Busy(cn) && Advance(c, cn, sh, e).SLock?
    ensures var st := cn.sv.stage; (st.SBody? && st.q.MapReq?) || st.SUnmapped?
    ensures Waiting(cn.cl.stage) && cn.cl.sem == [] && cn.cl.cq == []
  {
    hide CanMmap, CanRegMr, SectionDone, SendRoom, Before, Arrivals;
  }

  // ---- the main result

  /** What a path from s to t has brought about for c: its command returned, nothing failed,
      only c moved except to let it have the lock, and no poll found the queue empty. */
  ghost predicate Done(s: State, acts: seq<Act>, t: State, c: ConnId)
    requires c in s.conns
  {
    && Path(s, acts, t) && Inv(t) && c in t.conns
    && !t.conns[c].faulty && Returned(CmdOf(s.conns[c].cl), t.conns[c])
    && Tally(t.conns[c]) == Tally(s.conns[c]) && Commands(t.conns[c]) == Commands(s.conns[c])
    && (CmdOf(s.conns[c].cl).Open? ==> t.sh == s.sh)
    && forall k :: 0 <= k < |acts| ==> Ordinary(acts[k].1) && (acts[k].0 == c || InLock(acts[k].1))
  }

  /** What the next step of c brings about. */
  ghost predicate Nearer(s: State, c: ConnId, e: Env, m: State)
    requires c in s.conns
  {
    && Inv(m) && c in m.conns && !m.conns[c].faulty
    && Tally(m.conns[c]) == Tally(s.conns[c]) && Commands(m.conns[c]) == Commands(s.conns[c])
    && (CmdOf(s.conns[c].cl).Open? ==> m.sh == s.sh)
    && Work(c, m.conns[c], m.sh) < Work(c, s.conns[c], s.sh)
    && if Busy(m.conns[c]) then
         Hope(c, m.conns[c], m.sh, e) && !Late(m.conns[c]) && CmdOf(m.conns[c].cl) == CmdOf(s.conns[c].cl)
       else Returned(CmdOf(s.conns[c].cl), m.conns[c])
  }

  /** Where a command that can return stands. */
  ghost predicate CanGoOn(s: State, c: ConnId, e: Env)
  {
    && Inv(s) && c in s.conns && !s.conns[c].faulty && Busy(s.conns[c])
    && Hope(c, s.conns[c], s.sh, e) && !Late(s.conns[c])
  }

  lemma NearerStep(s: State, c: ConnId, e: Env)
    requires CanGoOn(s, c, e) && CanStep(s, c, Advance(c, s.conns[c], s.sh, e))
    ensures Nearer(s, c, e, Next(s, c, Advance(c, s.conns[c], s.sh, e)))
  {
    hide SharedInv, ConnInv, Enabled, Apply, Hope, Late, Clean, Advance, Work, Tally, Commands, CmdOf, Returned, Deaf, Ordinary;
    var cn := s.conns[c];
    var a := Advance(c, cn, s.sh, e);
    DeafAtRisk(cn);
    AdvanceEnabled(c, cn, s.sh, e);
    AdvanceClean(c, cn, s.sh, e);
    AdvanceOnTrack(c, cn, s.sh, e, a);
    TallyStep(c, cn, s.sh, a);
    WorkDrops(c, cn, s.sh, a);
    StaysInTime(c, cn, s.sh, e);
    if CmdOf(cn.cl).Open? { OpenShared(c, cn, s.sh, a); }
    NextKeeps(s, c, a);
  }

  /** Whether the next step can be taken at once, or the lock must be freed first. */
  lemma MayWait(s: State, c: ConnId, e: Env)
    requires CanGoOn(s, c, e)
    ensures Ordinary(Advance(c, s.conns[c], s.sh, e))
    ensures CanStep(s, c, Advance(c, s.conns[c], s.sh, e)) ||
            (Advance(c, s.conns[c], s.sh, e).SLock? && !s.sh.pool.lock.Unlocked? && !Holds(s.sh.pool, c)
             && !CmdOf(s.conns[c].cl).Open?)
  {
    hide SharedInv, Local, StageMap, Enabled, Apply, Hope, Late, Advance, Deaf, Ordinary, CmdOf;
    var cn := s.conns[c];
    DeafAtRisk(cn);
    AdvanceEnabled(c, cn, s.sh, e);
    if Advance(c, cn, s.sh, e).SLock? {
      LockStage(c, cn, s.sh, e);
      if CmdOf(cn.cl).Open? { OpenHasNoBody(c, cn, s.sh); }
    }
  }

  lemma FreedGoesOn(s: State, c: ConnId, e: Env, f: State)
    requires CanGoOn(s, c, e) && Advance(c, s.conns[c], s.sh, e).SLock? && !Holds(s.sh.pool, c) && Freed(s, f)
    ensures CanGoOn(f, c, e) && f.conns[c] == s.conns[c] && Work(c, f.conns[c], f.sh) == Work(c, s.conns[c], s.sh)
    ensures CanStep(f, c, Advance(c, f.conns[c], f.sh, e))
  {
    hide Inv, Hope, Late, Work, Advance, Busy, PoolInv, After;
    LockHope(s, f, c, e);
    MayWait(f, c, e);
  }

  lemma {:induction false} CanReturn(s: State, c: ConnId, e: Env) returns (acts: seq<Act>, t: State)
    requires CanGoOn(s, c, e)
    ensures Done(s, acts, t, c)
    decreases Work(c, s.conns[c], s.sh), 1
  {
    hide Inv, Next, CanStep, Work, Advance, Freed, Hope, Late, Tally, Commands, CmdOf, Returned, Busy, Path;
    MayWait(s, c, e);
    if CanStep(s, c, Advance(c, s.conns[c], s.sh, e)) {
      acts, t := ReturnFrom(s, c, e);
    } else {
      var pre, f := LockFrees(s);
      FreedGoesOn(s, c, e, f);
      var rest;
      rest, t := ReturnFrom(f, c, e);
      acts := pre + rest;
      PathConcat(s, pre, f, rest, t);
    }
  }

  lemma {:induction false} ReturnFrom(s: State, c: ConnId, e: Env) returns (acts: seq<Act>, t: State)
    requires CanGoOn(s, c, e) && CanStep(s, c, Advance(c, s.conns[c], s.sh, e))
    ensures Done(s, acts, t, c)
    decreases Work(c, s.conns[c], s.sh), 0
  {
    hide Inv, Next, CanStep, Work, Advance, Ordinary, Hope, Late, Tally, Commands, CmdOf, Returned, Busy;
    var a := Advance(c, s.conns[c], s.sh, e);
    var m := Next(s, c, a);
    MayWait(s, c, e);
    NearerStep(s, c, e);
    acts, t := [], m;
    if Busy(m.conns[c]) { acts, t := CanReturn(m, c, e); }
    var rest := acts;
    acts := [(c, a)] + rest;
    assert acts[1..] == rest && acts[0] == (c, a);
    assert Path(s, acts, t);
    assert forall k :: 0 < k < |acts| ==> acts[k] == rest[k - 1];
  }

  ghost predicate ReturnsBy(s: State, acts: seq<Act>, t: State, c: ConnId)
    requires c in s.conns
  {
    Path(s, acts, t) && c in t.conns && !t.conns[c].faulty && Returned(CmdOf(s.conns[c].cl), t.conns[c])
  }

  /** Failure-free progress, with its exact condition: a command that has met no failure,
      and whose environment grants what it still needs, can return without any failure if
      and only if it is not too late for its request. */
  lemma CommandReturns(s: State, c: ConnId, e: Env)
    requires Reachable(s) && c in s.conns && !s.conns[c].faulty && Busy(s.conns[c]) && Hope(c, s.conns[c], s.sh, e)
    ensures (exists acts, t :: ReturnsBy(s, acts, t, c)) <==> !Late(s.conns[c])
  {
    hide Reachable, Inv, Path, Hope, Late, Tally, Commands;
    ReachableInv(s);
    if !Late(s.conns[c]) {
      var acts, t := CanReturn(s, c, e);
      assert ReturnsBy(s, acts, t, c);
    } else {
      forall acts, t | ReturnsBy(s, acts, t, c) ensures false { LateForever(s, acts, t, c); }
    }
  }
}
