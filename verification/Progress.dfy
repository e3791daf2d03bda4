/** Progress: a command that has begun can always go on unless the server's completion
    thread has ended. */
module Progress {
  import opened Wire
  import opened PoolModel
  import opened System
  import opened Invariant
  import opened SharedSteps
  import opened Safety
  import opened Termination
  import opened Drain

  // ---- the next step of a command

  /** What the environment will answer: the address mmap returns, the bytes mapped there,
      and the key ibv_reg_mr returns. */
  datatype Env = Env(addr: U64, data: seq<Byte>, rkey: U32)

  /** Poll or await a completion, to free a slot of the send queue. */
  function Free(cl: Client): (a: Step) { if cl.cq != [] then CPoll else CComplete }

  /** The next step of a running handler, if the lock does not keep it waiting. System
      calls succeed where they can. */
  function HandlerAdvance(c: ConnId, cn: Conn, sh: Shared, e: Env): (a: Step)
  {
    match cn.sv.stage
    case SIdle => SHandle
    case SDispatched(_) => SDecode
    case SDecoded(q, _) => if q.OpenReq? then SReadFree else SRepost(true, 0, 0)
    case SOpenRead(_) => SRepost(true, 0, 0)
    case SBody(q, _) => if q.MapReq? then SLock else if q.UnmapReq? then SDereg else SMsync(true)
    case SMapLocked(_) => if SectionDone(sh.pool) then SUnlock else SStore
    case SGiving(_) => if SectionDone(sh.pool) then SUnlock else SStore
    case SMapDone(_, _) =>
      if c !in sh.pool.now.owner then SCheck(0, 0)
      else if CanMmap(c, cn, sh, true, e.addr, e.data) then SMmap(true, e.addr, e.data)
      else SMmap(false, 0, [])
    case SMmapped(_, _, _, _) => if CanRegMr(cn, sh, true, e.rkey) then SRegMr(true, e.rkey) else SRegMr(false, 0)
    case SUnreg(_, _) => SMunmap(true)
    case SUnmapped(_, _) => SLock
    case SReply(_, _) => SPack
    case SPacked(_, _) => SPostSend(true)
    case SSent => SReturn
  }

  /** While the client waits: whatever is nearest to waking it. */
  function WaitAdvance(c: ConnId, cn: Conn, sh: Shared, e: Env): (a: Step)
  {
    var cl, sv := cn.cl, cn.sv;
    if cl.sem != [] then (if cl.stage.CWait? then CWake else CWakeRead)
    else if cl.cq != [] then CPoll
    else if !sv.stage.SIdle? then HandlerAdvance(c, cn, sh, e)
    else if sv.polled > 0 then SHandle
    else if Arrived(cn) then SPoll(if Before(sv.cq) < BATCH then Before(sv.cq) + 1 else 1)
    else if sv.sq > 0 then SDeliver
    else if cl.sq != [] then CExec
    else CComplete
  }

  /** The next step of a connection whose command is not over. */
  function Advance(c: ConnId, cn: Conn, sh: Shared, e: Env): (a: Step)
  {
    var cl := cn.cl;
    match cl.stage
    case CIdle | CClosed => Break
    case CBegun(_) => CPostRecv(true)
    case CRecvd(cmd) => if !cmd.Commit? then CPack else if SendRoom(cl, true) then CPostWrite(true) else Free(cl)
    case CWrote => CPack
    case CPacked(_) => if SendRoom(cl, true) then CPostSend(true) else Free(cl)
    case CWoken(_) => CUnpack
    case CMapDec => if SendRoom(cl, true) then CPostRead(true) else Free(cl)
    case _ => WaitAdvance(c, cn, sh, e)
  }

  // ---- the next step is enabled

  lemma RecvsPosted(cq: seq<Wc>)
    requires Posts(cq) == [] && NoErrors(cq)
    ensures RecvsIn(cq) == 0
  {
    if cq != [] { RecvsPosted(cq[1..]); }
  }

  lemma SlotsFree(cl: Client)
    requires |cl.sq| <= 1 && !SendRoom(cl, true)
    ensures cl.cq != [] || cl.unacked != []
  {
  }

  lemma ClientAdvances(c: ConnId, cn: Conn, sh: Shared, e: Env)
    requires Local(cn) && !cn.faulty && Busy(cn) && !Waiting(cn.cl.stage)
    ensures var a := Advance(c, cn, sh, e); Ordinary(a) && !a.SPollEmpty? && Enabled(c, cn, sh, a)
  {
    hide CmdInv, Content, CanServer, CanHandler, HandlerAdvance, RecvsIn, Past, MayWrite, SendSlots;
    assert !cn.broken && |cn.cl.sq| <= 1 && Load(cn) == 0;
    if cn.cl.stage.CBegun? {
      assert Posts(cn.cl.cq) == [];
      RecvsPosted(cn.cl.cq);
    }
    if !SendRoom(cn.cl, true) { SlotsFree(cn.cl); }
  }

  lemma BodyAdvances(c: ConnId, cn: Conn, sh: Shared, e: Env, cmd: Cmd)
    requires Handling(c, cn, sh, cmd) && !InSection(cn.sv)
    requires cmd.Commit? ==> LiveHandle(c, sh, cn.cl.mr)
    ensures var a := HandlerAdvance(c, cn, sh, e);
            && Ordinary(a) && !a.SPollEmpty?
            && (Enabled(c, cn, sh, a) || (a.SLock? && !sh.pool.lock.Unlocked?))
  {
    hide CanIssue, CanFinish, CanAdapter, Fresh, Outcome, GetU32, GetU64, Pending, Arrivals;
  }

  lemma SectionAdvancesOn(c: ConnId, cn: Conn, sh: Shared, e: Env, cmd: Cmd)
    requires HandlerMap(c, sh, cn.sv.stage, cmd, cn.cl.mr) && PoolInv(sh.sizes, sh.pool) && InSection(cn.sv)
    ensures var a := HandlerAdvance(c, cn, sh, e); Ordinary(a) && !a.SPollEmpty? && Enabled(c, cn, sh, a)
  {
    hide CanIssue, CanFinish, CanAdapter, CanServer, NoMr, PoolInv, CanStore;
    SectionAdvances(sh.sizes, sh.pool);
  }

  lemma SharedPool(sh: Shared)
    requires SharedInv(sh)
    ensures PoolInv(sh.sizes, sh.pool)
  {
    hide PoolInv, MrSound;
  }

  lemma CommitLive(c: ConnId, cn: Conn, sh: Shared)
    requires CmdInv(cn.cl) && Mapping(c, cn, sh) && cn.cl.stage == CWait(Commit)
    ensures LiveHandle(c, sh, cn.cl.mr)
  {
    hide StageMap, Live;
  }

  lemma HandlerAdvances(c: ConnId, cn: Conn, sh: Shared, e: Env)
    requires ConnInv(c, cn, sh) && SharedInv(sh) && Active(cn.sv.stage)
    ensures var a := HandlerAdvance(c, cn, sh, e);
            && Ordinary(a) && !a.SPollEmpty?
            && (Enabled(c, cn, sh, a) || (a.SLock? && !sh.pool.lock.Unlocked?))
  {
    hide SharedInv, Shape, Content, Credits, CmdInv, Mapping, PoolInv, HandlerAdvance, Enabled, HandlerMap, HandlerHas;
    HandlerRuns(c, cn, sh);
    if InSection(cn.sv) {
      SharedPool(sh);
      SectionAdvancesOn(c, cn, sh, e, cn.cl.stage.cmd);
    } else {
      if cn.cl.stage.cmd.Commit? { CommitLive(c, cn, sh); }
      BodyAdvances(c, cn, sh, e, cn.cl.stage.cmd);
    }
  }

  /** What a waiting client without a running handler has to go on with. */
  lemma WaitFacts(cn: Conn)
    requires Local(cn) && !cn.faulty && Waiting(cn.cl.stage) && !Active(cn.sv.stage)
    ensures !cn.broken && cn.sv.polled <= |cn.sv.cq|
    ensures cn.sv.sq > 0 ==> cn.cl.recvs > 0
    ensures cn.cl.sq != [] && cn.cl.sq[0].WrSend? ==> cn.sv.recvs > 0
    ensures cn.cl.sem == [] && cn.cl.cq == [] && cn.sv.sq == 0 && !Arrived(cn) && cn.cl.sq == [] ==> cn.cl.unacked != []
  {
    hide CmdInv, GoodTrace, LastIssued, LastReplied, HandlerHas, DecodeRequest, MayWrite, WritesOf;
    var cl, sv := cn.cl, cn.sv;
    assert Load(cn) == 1 && !cn.broken;
    if cl.sq != [] && cl.sq[0].WrSend? { assert EndsSend(cl.sq); }
  }

  lemma WaitAdvances(c: ConnId, cn: Conn, sh: Shared, e: Env)
    requires Local(cn) && !cn.faulty && Waiting(cn.cl.stage) && !Active(cn.sv.stage) && !Deaf(cn)
    ensures var a := WaitAdvance(c, cn, sh, e); Ordinary(a) && !a.SPollEmpty? && Enabled(c, cn, sh, a)
  {
    hide Local, CanIssue, CanHandler, Arrivals, Before;
    WaitFacts(cn);
  }

  lemma CanPollClient(c: ConnId, cn: Conn, sh: Shared)
    ensures cn.cl.cq != [] ==> Enabled(c, cn, sh, CPoll)
  {
  }

  lemma AdvanceEnabled(c: ConnId, cn: Conn, sh: Shared, e: Env)
    requires ConnInv(c, cn, sh) && SharedInv(sh) && !cn.faulty && Busy(cn) && !Deaf(cn)
    ensures var a := Advance(c, cn, sh, e);
            && Ordinary(a) && !a.SPollEmpty?
            && (Enabled(c, cn, sh, a) || (a.SLock? && !sh.pool.lock.Unlocked?))
  {
    hide SharedInv, Local, Mapping, Enabled, HandlerAdvance;
    if !Waiting(cn.cl.stage) {
      ClientAdvances(c, cn, sh, e);
    } else if Active(cn.sv.stage) {
      HandlerAdvances(c, cn, sh, e);
      AwaitNothing(cn);
      CanPollClient(c, cn, sh);
    } else {
      WaitAdvances(c, cn, sh, e);
    }
  }

  /** While a handler runs its client has no semaphore unit, but it may have completions of
      its own sends to poll. */
  lemma AwaitNothing(cn: Conn)
    requires Local(cn) && Active(cn.sv.stage)
    ensures cn.cl.sem == []
  {
    hide Content, Credits, CmdInv;
  }

  // ---- no deadlock

  /** Who is in a critical section can always do its next store or leave it. */
  lemma HolderAdvances(s: State)
    requires Inv(s) && !s.sh.pool.lock.Unlocked?
    ensures var d := s.sh.pool.lock.who;
            && d in s.conns && InSection(s.conns[d].sv)
            && CanStep(s, d, if SectionDone(s.sh.pool) then SUnlock else SStore)
  {
    hide Local, SharedInv, Enabled, HandlerMap;
    var d := s.sh.pool.lock.who;
    var cn := s.conns[d];
    assert ConnInv(d, cn, s.sh);
    HandlerRuns(d, cn, s.sh);
    SharedPool(s.sh);
    SectionAdvancesOn(d, cn, s.sh, Env(0, [], 0), cn.cl.stage.cmd);
  }

  /** No deadlock: while nothing has failed and its request has not found the server's
      thread gone, a connection whose command is not over can take an ordinary step, unless
      it waits for the pool's lock, and then the holder of the lock can take one. System
      calls that can succeed do. */
  lemma NoDeadlock(s: State, c: ConnId, e: Env)
    requires Reachable(s) && c in s.conns && !s.conns[c].faulty && Busy(s.conns[c]) && !Deaf(s.conns[c])
    ensures var a := Advance(c, s.conns[c], s.sh, e);
            && Ordinary(a)
            && (|| CanStep(s, c, a)
                || (a.SLock? && !s.sh.pool.lock.Unlocked?
                    && var d := s.sh.pool.lock.who;
                       d in s.conns && (CanStep(s, d, SStore) || CanStep(s, d, SUnlock))))
  {
    hide Reachable, ConnInv, SharedInv, Enabled, Advance, Deaf;
    ReachableInv(s);
    AdvanceEnabled(c, s.conns[c], s.sh, e);
    if !s.sh.pool.lock.Unlocked? { HolderAdvances(s); }
  }
}
