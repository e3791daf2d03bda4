/** Every step of a connection keeps what ties it to the shared state, keeps the shared
    state's own invariant, and leaves every other connection's share untouched. */
module SharedSteps {
  import opened Wire
  import opened PoolModel
  import opened System
  import opened Invariant
  import LocalSteps

  // ---- steps that leave the shared state alone

  /** The two differ in nothing that ties them to the shared state. */
  ghost predicate SameTie(cn: Conn, r: Conn)
  {
    && r.cl.stage == cn.cl.stage && r.cl.mapped == cn.cl.mapped && r.cl.gaveUp == cn.cl.gaveUp
    && r.cl.mr == cn.cl.mr && r.trace == cn.trace
    && (r.sv.stage == cn.sv.stage || (!Active(r.sv.stage) && !Active(cn.sv.stage)))
    && r.sv.sq == cn.sv.sq && Arrivals(r.sv.cq) == Arrivals(cn.sv.cq)
    && Pending(r.cl) == Pending(cn.cl) && Reads(r.cl.unacked) <= Reads(cn.cl.unacked)
    && (cn.broken ==> r.broken)
    && (r.cl.sq == cn.cl.sq || (r.broken && !Past(cn) && (EndsSend(r.cl.sq) ==> EndsSend(cn.cl.sq))))
  }

  lemma SameTieKeeps(c: ConnId, cn: Conn, r: Conn, sh: Shared)
    requires Mapping(c, cn, sh) && SameTie(cn, r)
    ensures Mapping(c, r, sh)
  {
    hide LiveHandle, Live, Region, Outcome, HandlerMap, Ready, NoMr, Unheld, Pending, Arrivals, Reads, EndsSend;
    assert Past(r) == Past(cn);
    assert StageMap(c, r, sh);
  }

  lemma BeginKeeps(c: ConnId, cn: Conn, sh: Shared, cmd: Cmd, alloc: bool)
    requires Local(cn) && Mapping(c, cn, sh) && CanBegin(cn.cl, cmd)
    ensures Mapping(c, DoBegin(cn, cmd, alloc), sh)
  {
  }

  lemma FailKeeps(c: ConnId, cn: Conn, sh: Shared, cmd: Cmd)
    requires CmdInv(cn.cl) && Mapping(c, cn, sh)
    requires cn.cl.stage == CBegun(cmd) || cn.cl.stage == CRecvd(cmd) || cn.cl.stage == CPacked(cmd)
    ensures Mapping(c, FailCommand(cn, cmd), sh)
  {
  }

  lemma PostRecvKeeps(c: ConnId, cn: Conn, sh: Shared, ok: bool)
    requires Local(cn) && Mapping(c, cn, sh) && cn.cl.stage.CBegun?
    ensures Mapping(c, DoCPostRecv(cn, ok), sh)
  {
    hide Shape, Content, Credits, LiveHandle;
    if !ok {
      var z := cn.(cl := cn.cl.(rsp := Zeroed()));
      assert Mapping(c, z, sh);
      FailKeeps(c, z, sh, cn.cl.stage.cmd);
    }
  }

  lemma PostWriteKeeps(c: ConnId, cn: Conn, sh: Shared, ok: bool)
    requires Local(cn) && Mapping(c, cn, sh) && cn.cl.stage == CRecvd(Commit)
    ensures Mapping(c, DoCPostWrite(cn, ok), sh)
  {
    hide LiveHandle, Outcome, HandlerMap, Content, Credits;
    assert !EndsSend(cn.cl.sq) && !EndsRead(cn.cl.sq);
  }

  lemma PackKeeps(c: ConnId, cn: Conn, sh: Shared)
    requires Local(cn) && Mapping(c, cn, sh) && CanPack(cn.cl)
    ensures Mapping(c, DoCPack(cn), sh)
  {
  }

  lemma SendFails(c: ConnId, cn: Conn, sh: Shared)
    requires CmdInv(cn.cl) && Mapping(c, cn, sh) && cn.cl.stage.CPacked?
    ensures Mapping(c, FailCommand(cn, cn.cl.stage.cmd), sh)
  {
    hide Live, Outcome, HandlerMap, Region;
  }

  lemma PostSendKeeps(c: ConnId, cn: Conn, sh: Shared, ok: bool)
    requires Local(cn) && Mapping(c, cn, sh) && cn.cl.stage.CPacked?
    ensures Mapping(c, DoCPostSend(cn, ok), sh)
  {
    hide Credits, LiveHandle, Outcome, HandlerMap, Region, FailCommand;
    if !ok { SendFails(c, cn, sh); }
  }

  lemma WakeKeeps(c: ConnId, cn: Conn, sh: Shared)
    requires Local(cn) && Mapping(c, cn, sh) && cn.cl.stage.CWait? && cn.cl.sem != []
    ensures Mapping(c, DoCWake(cn), sh)
  {
  }

  /** The answer of a woken client, and that nothing else is under way. */
  ghost predicate WokenWith(cn: Conn, rsp: Response)
  {
    && cn.cl.stage.CWoken?
    && CmdInv(cn.cl)
    && UnpackResponse(RspOpcode(cn.cl.stage.cmd), cn.cl.rsp) == Accepted(rsp)
    && Answers(ReqOf(cn.cl.stage.cmd, cn.cl.mr), rsp)
    && Reads(cn.cl.unacked) == 0 && Pending(cn.cl) == []
  }

  lemma UnpackMapKeeps(c: ConnId, cn: Conn, sh: Shared, rsp: Response)
    requires WokenWith(cn, rsp) && cn.cl.stage.cmd.Map? && Mapping(c, cn, sh)
    requires Outcome(c, sh, ReqOf(cn.cl.stage.cmd, cn.cl.mr), rsp)
    ensures Mapping(c, DoCUnpack(cn), sh)
  {
    assert ReadMap(c, DoCUnpack(cn), sh);
  }

  lemma UnpackOtherKeeps(c: ConnId, cn: Conn, sh: Shared, rsp: Response)
    requires WokenWith(cn, rsp) && !cn.cl.stage.cmd.Map? && Mapping(c, cn, sh)
    requires Outcome(c, sh, ReqOf(cn.cl.stage.cmd, cn.cl.mr), rsp)
    ensures Mapping(c, DoCUnpack(cn), sh)
  {
  }

  lemma UnpackKeeps(c: ConnId, cn: Conn, sh: Shared)
    requires Local(cn) && Mapping(c, cn, sh) && cn.cl.stage.CWoken?
    ensures Mapping(c, DoCUnpack(cn), sh)
  {
    var rsp := cn.trace[|cn.trace| - 1].rsp;
    assert WokenWith(cn, rsp);
    if cn.cl.stage.cmd.Map? { UnpackMapKeeps(c, cn, sh, rsp); } else { UnpackOtherKeeps(c, cn, sh, rsp); }
  }

  lemma PostReadKeeps(c: ConnId, cn: Conn, sh: Shared, ok: bool)
    requires Local(cn) && Mapping(c, cn, sh) && cn.cl.stage.CMapDec?
    ensures Mapping(c, DoCPostRead(cn, ok), sh)
  {
  }

  lemma WakeReadKeeps(c: ConnId, cn: Conn, sh: Shared)
    requires Local(cn) && Mapping(c, cn, sh) && cn.cl.stage.CReadWait? && cn.cl.sem != []
    ensures Mapping(c, DoCWakeRead(cn), sh)
  {
  }

  lemma AppWriteKeeps(c: ConnId, cn: Conn, sh: Shared, data: seq<Byte>)
    requires Local(cn) && Mapping(c, cn, sh)
    requires cn.cl.stage.CIdle? && cn.cl.mapped && |data| == cn.cl.mr.len
    ensures Mapping(c, cn.(cl := cn.cl.(mr := cn.cl.mr.(local := data))), sh)
  {
  }

  lemma CompleteKeeps(c: ConnId, cn: Conn, sh: Shared)
    requires Local(cn) && Mapping(c, cn, sh) && !cn.broken && cn.cl.unacked != []
    ensures Mapping(c, DoCComplete(cn), sh)
  {
    hide GoodTrace, LastReplied, LastIssued, HandlerHas, HandlerMap, Outcome, Ready, LiveHandle, NoMr, Region, CmdInv;
    LocalSteps.CompletePending(cn);
  }

  lemma PollKeeps(c: ConnId, cn: Conn, sh: Shared)
    requires Mapping(c, cn, sh) && cn.cl.cq != []
    ensures Mapping(c, DoCPoll(cn), sh)
  {
    hide Mapping;
    LocalSteps.PollPending(cn);
    SameTieKeeps(c, cn, DoCPoll(cn), sh);
  }

  lemma SPollKeeps(c: ConnId, cn: Conn, sh: Shared, polled: nat, drained: nat)
    requires Mapping(c, cn, sh)
    ensures Mapping(c, cn.(sv := cn.sv.(polled := polled, drained := drained)), sh)
  {
    hide Mapping;
    SameTieKeeps(c, cn, cn.(sv := cn.sv.(polled := polled, drained := drained)), sh);
  }

  lemma SHandleKeeps(c: ConnId, cn: Conn, sh: Shared)
    requires Local(cn) && Mapping(c, cn, sh) && CanHandle(cn.sv)
    ensures Mapping(c, DoSHandle(cn), sh)
  {
    hide Content, Credits;
  }

  lemma SDecodeKeeps(c: ConnId, cn: Conn, sh: Shared)
    requires Local(cn) && Mapping(c, cn, sh) && cn.sv.stage.SDispatched?
    ensures Mapping(c, DoSDecode(c, cn, sh), sh)
  {
  }

  lemma SReadFreeKeeps(c: ConnId, cn: Conn, sh: Shared, size: S32)
    requires Local(cn) && Mapping(c, cn, sh) && cn.sv.stage.SDecoded? && cn.sv.stage.q.OpenReq?
    ensures Mapping(c, cn.(sv := cn.sv.(stage := SOpenRead(size))), sh)
  {
  }

  lemma SRepostKeeps(c: ConnId, cn: Conn, sh: Shared, ok: bool, rkey: U32, addr: U64)
    requires Local(cn) && Mapping(c, cn, sh) && CanRepost(cn.sv)
    ensures Mapping(c, DoSRepost(cn, ok, rkey, addr), sh)
  {
  }

  lemma SCheckKeeps(c: ConnId, cn: Conn, sh: Shared, rkey: U32, addr: U64)
    requires Local(cn) && Mapping(c, cn, sh) && cn.sv.stage.SMapDone?
    ensures Mapping(c, cn.(sv := cn.sv.(stage := SReply(cn.sv.stage.q, MapRsp(rkey, addr)))), sh)
  {
  }

  lemma SMsyncKeeps(c: ConnId, cn: Conn, sh: Shared, ok: bool)
    requires Local(cn) && Mapping(c, cn, sh) && CanMsync(cn, sh, ok)
    ensures Mapping(c, DoSMsync(cn, ok), sh)
  {
  }

  lemma SPackKeeps(c: ConnId, cn: Conn, sh: Shared)
    requires Local(cn) && Mapping(c, cn, sh) && cn.sv.stage.SReply?
    ensures Mapping(c, DoSPack(cn), sh)
  {
  }

  lemma SPostSendKeeps(c: ConnId, cn: Conn, sh: Shared, ok: bool)
    requires Local(cn) && Mapping(c, cn, sh) && cn.sv.stage.SPacked?
    ensures Mapping(c, DoSPostSend(cn, ok), sh)
  {
    hide Credits, UnpackResponse, Region;
  }

  lemma SReturnKeeps(c: ConnId, cn: Conn, sh: Shared)
    requires Mapping(c, cn, sh) && cn.sv.stage.SSent?
    ensures Mapping(c, cn.(sv := cn.sv.(stage := SIdle)), sh)
  {
    hide Mapping;
    SameTieKeeps(c, cn, cn.(sv := cn.sv.(stage := SIdle)), sh);
  }

  lemma SDeliverKeeps(c: ConnId, cn: Conn, sh: Shared)
    requires Local(cn) && Mapping(c, cn, sh) && CanDeliver(cn)
    ensures Mapping(c, DoSDeliver(cn), sh)
  {
    PostsAppend(cn.cl.cq, Wc(Recv, true));
  }

  lemma SQueueKeeps(c: ConnId, cn: Conn, sh: Shared, unacked: nat, w: Wc)
    requires Mapping(c, cn, sh) && w != Wc(Recv, true)
    ensures Mapping(c, cn.(sv := cn.sv.(unacked := unacked, cq := cn.sv.cq + [w])), sh)
  {
    hide Mapping;
    ArrivalsAppend(cn.sv.cq, w);
    SameTieKeeps(c, cn, cn.(sv := cn.sv.(unacked := unacked, cq := cn.sv.cq + [w])), sh);
  }

  lemma CFlushRecvKeeps(c: ConnId, cn: Conn, sh: Shared)
    requires Mapping(c, cn, sh) && cn.cl.recvs > 0
    ensures Mapping(c, DoCFlushRecv(cn), sh)
  {
    hide Mapping;
    PostsAppend(cn.cl.cq, Wc(Recv, false));
    assert Pending(DoCFlushRecv(cn).cl) == Pending(cn.cl);
    SameTieKeeps(c, cn, DoCFlushRecv(cn), sh);
  }

  lemma CFlushSendKeeps(c: ConnId, cn: Conn, sh: Shared)
    requires Local(cn) && Mapping(c, cn, sh) && cn.broken && CanFlushSend(cn.cl)
    ensures Mapping(c, DoCFlushSend(cn), sh)
  {
    hide Mapping, Content, Credits;
    var w := if cn.cl.unacked != [] then cn.cl.unacked[0] else cn.cl.sq[0];
    PostsAppend(cn.cl.cq, Wc(OpOf(w), false));
    assert Pending(DoCFlushSend(cn).cl) == Pending(cn.cl);
    SameTieKeeps(c, cn, DoCFlushSend(cn), sh);
  }

  lemma BreakKeeps(c: ConnId, cn: Conn, sh: Shared)
    requires Mapping(c, cn, sh)
    ensures Mapping(c, cn.(broken := true, faulty := true), sh)
  {
    hide Mapping;
    SameTieKeeps(c, cn, cn.(broken := true, faulty := true), sh);
  }

  // ---- steps that change the shared state

  /** The guarantee of a step of c: everyone else's share is untouched. */
  ghost predicate Guarantee(c: ConnId, sh: Shared, sh': Shared)
  {
    forall d :: d != c ==> Stable(d, sh, sh')
  }

  lemma ExecSendKeeps(c: ConnId, cn: Conn, sh: Shared)
    requires Local(cn) && Mapping(c, cn, sh) && CanExec(cn) && cn.cl.sq[0].WrSend?
    ensures Mapping(c, DoCExec(c, cn, sh).0, sh) && DoCExec(c, cn, sh).1 == sh
  {
    ReadsAppend(cn.cl.unacked, WrSend);
    ArrivalsAppend(cn.sv.cq, Wc(Recv, true));
    assert |cn.cl.sq| == 1;
  }

  /** The READ of a map is refused unless the server holds the mapping it was told of:
      any registration in this protection domain is that mapping. */
  lemma ExecReadKeeps(c: ConnId, cn: Conn, sh: Shared)
    requires Local(cn) && Mapping(c, cn, sh) && CanExec(cn) && cn.cl.sq[0].WrRead?
    ensures Mapping(c, DoCExec(c, cn, sh).0, sh) && DoCExec(c, cn, sh).1 == sh
  {
    ReadsAppend(cn.cl.unacked, cn.cl.sq[0]);
    assert |cn.cl.sq| == 1;
    var r := DoCExec(c, cn, sh).0;
    if !r.broken {
      assert LiveHandle(c, sh, cn.cl.mr);
      assert r.cl.mr.local == Region(sh, cn.cl.mr) == Region(sh, r.cl.mr);
      assert ReadMap(c, r, sh);
    }
  }

  lemma WriteTagged(mem: Memory, c: ConnId, addr: nat, len: int, at: nat, data: seq<Byte>)
    requires Tagged(mem, c, addr, len)
    ensures Tagged(WriteBytes(mem, at, data), c, addr, len)
  {
  }

  lemma WriteShared(c: ConnId, sh: Shared, rkey: U32, addr: U64, data: seq<Byte>)
    requires SharedInv(sh) && Access(sh, c, rkey, addr, |data|)
    ensures var sh' := sh.(mem := WriteBytes(sh.mem, addr, data));
            SharedInv(sh') && Guarantee(c, sh, sh')
  {
    var sh' := sh.(mem := WriteBytes(sh.mem, addr, data));
    forall k | k in sh.mrs ensures Tagged(sh'.mem, sh.mrs[k].pd, sh.mrs[k].addr, sh.mrs[k].len) {
      WriteTagged(sh.mem, sh.mrs[k].pd, sh.mrs[k].addr, sh.mrs[k].len, addr, data);
    }
    forall a | a in sh.mem && sh.mem[a].tag != c ensures sh'.mem[a] == sh.mem[a] {
      assert Tagged(sh.mem, sh.mrs[rkey].pd, sh.mrs[rkey].addr, sh.mrs[rkey].len);
    }
  }

  lemma ReadBack(mem: Memory, addr: nat, data: seq<Byte>)
    requires Mapped(mem, addr, |data|)
    ensures ReadBytes(WriteBytes(mem, addr, data), addr, |data|) == data
  {
    var r := ReadBytes(WriteBytes(mem, addr, data), addr, |data|);
    forall i | 0 <= i < |data| ensures r[i] == data[i] {
      var a: nat := addr + i;
      assert a in mem;
    }
  }

  lemma WriteMapped(c: ConnId, cn: Conn, sh: Shared, sh': Shared)
    requires CmdInv(cn.cl) && Mapping(c, cn, sh) && cn.cl.mapped
    requires sh' == sh.(mem := WriteBytes(sh.mem, cn.cl.mr.raddr, cn.cl.mr.local))
    ensures LiveHandle(c, sh', cn.cl.mr) && Region(sh', cn.cl.mr) == cn.cl.mr.local
  {
    var mr := cn.cl.mr;
    WriteTagged(sh.mem, c, mr.raddr, mr.len, mr.raddr, mr.local);
    ReadBack(sh.mem, mr.raddr, mr.local);
  }

  /** A WRITE leaves the mapping it goes to as live as it was. */
  lemma WriteLive(c: ConnId, sh: Shared, sh': Shared, at: nat, data: seq<Byte>, rkey: U32, addr: U64, len: int)
    requires sh' == sh.(mem := WriteBytes(sh.mem, at, data)) && Live(c, sh, rkey, addr, len)
    ensures Live(c, sh', rkey, addr, len)
  {
    WriteTagged(sh.mem, c, addr, len, at, data);
  }

  /** A WRITE that executes while the client is mapped makes region and buffer equal; one
      that executes while the client is leaving changes nothing that is still relied on. */
  lemma WriteStage(c: ConnId, cn: Conn, sh: Shared, sh': Shared)
    requires CmdInv(cn.cl) && Shape(cn) && Mapping(c, cn, sh) && cn.cl.sq != [] && cn.cl.sq[0].WrWrite?
    requires sh' == sh.(mem := sh'.mem)
    requires LiveHandle(c, sh, cn.cl.mr) ==> LiveHandle(c, sh', cn.cl.mr)
    requires cn.cl.mapped ==> Region(sh', cn.cl.mr) == cn.cl.mr.local
    ensures var r := cn.(cl := cn.cl.(sq := cn.cl.sq[1..], unacked := cn.cl.unacked + [cn.cl.sq[0]]));
            Mapping(c, r, sh')
  {
    hide LiveHandle, Region, Outcome, HandlerMap;
    var r := cn.(cl := cn.cl.(sq := cn.cl.sq[1..], unacked := cn.cl.unacked + [cn.cl.sq[0]]));
    ReadsAppend(cn.cl.unacked, cn.cl.sq[0]);
    assert !Past(cn);
    assert cn.sv.sq == 0 && Pending(cn.cl) == [] && !Active(cn.sv.stage);
    assert Pending(r.cl) == Pending(cn.cl);
    assert StageMap(c, r, sh');
  }

  /** A WRITE of a mapped client makes its region equal to its buffer. */
  lemma ExecWriteKeeps(c: ConnId, cn: Conn, sh: Shared)
    requires Local(cn) && Mapping(c, cn, sh) && SharedInv(sh) && CanExec(cn) && cn.cl.sq[0].WrWrite?
    ensures var (r, sh') := DoCExec(c, cn, sh);
            Mapping(c, r, sh') && SharedInv(sh') && Guarantee(c, sh, sh')
  {
    hide Shape, Content, Credits, CmdInv, Mapping, SharedInv, Stable, Access, WriteBytes, Live;
    var (r, sh') := DoCExec(c, cn, sh);
    var w := cn.cl.sq[0];
    if !r.broken {
      WriteShared(c, sh, w.rkey, w.addr, cn.cl.mr.local);
      if LiveHandle(c, sh, cn.cl.mr) {
        WriteLive(c, sh, sh', w.addr, cn.cl.mr.local, cn.cl.mr.rkey, cn.cl.mr.raddr, cn.cl.mr.len);
      }
      if cn.cl.mapped {
        QueuedWrite(cn);
        WriteMapped(c, cn, sh, sh');
      }
      WriteStage(c, cn, sh, sh');
    } else {
      BreakKeeps(c, cn, sh);
      StableSame(c, sh);
    }
  }

  lemma StableSame(c: ConnId, sh: Shared)
    ensures Guarantee(c, sh, sh)
  {
  }

  lemma QueuedWrite(cn: Conn)
    requires Shape(cn) && CmdInv(cn.cl) && cn.cl.mapped && cn.cl.sq != [] && cn.cl.sq[0].WrWrite?
    ensures cn.cl.sq[0] == WrWrite(cn.cl.mr.rkey, cn.cl.mr.raddr, cn.cl.mr.len)
  {
  }

  // ---- the handler's steps

  /** A handler is running for command `cmd`, and nothing else is under way. */
  ghost predicate Handling(c: ConnId, cn: Conn, sh: Shared, cmd: Cmd)
  {
    && cn.cl.stage == CWait(cmd)
    && CmdOk(cn.cl, cmd)
    && Active(cn.sv.stage)
    && HandlerHas(cn.sv, ReqOf(cmd, cn.cl.mr))
    && HandlerMap(c, sh, cn.sv.stage, cmd, cn.cl.mr)
    && !EndsSend(cn.cl.sq) && Arrivals(cn.sv.cq) == 0 && cn.sv.sq == 0 && Pending(cn.cl) == []
  }

  lemma HandlerRuns(c: ConnId, cn: Conn, sh: Shared)
    requires Local(cn) && Mapping(c, cn, sh) && Active(cn.sv.stage)
    ensures cn.cl.stage.CWait? && Handling(c, cn, sh, cn.cl.stage.cmd)
  {
  }

  lemma HandlerMoved(c: ConnId, cn: Conn, sh: Shared, cmd: Cmd)
    requires Handling(c, cn, sh, cmd) && !cmd.Commit?
    requires Holds(sh.pool, c) <==> InSection(cn.sv)
    ensures Mapping(c, cn, sh)
  {
  }

  lemma LockShared(c: ConnId, sh: Shared, pool: Pool)
    requires SharedInv(sh) && sh.pool.lock.Unlocked?
    requires pool.now == sh.pool.now && Holds(pool, c) && PoolInv(sh.sizes, pool)
    ensures SharedInv(sh.(pool := pool)) && Guarantee(c, sh, sh.(pool := pool))
  {
  }

  lemma SLockKeeps(c: ConnId, cn: Conn, sh: Shared)
    requires Local(cn) && Mapping(c, cn, sh) && SharedInv(sh) && CanLock(cn, sh)
    ensures var (r, sh') := DoSLock(c, cn, sh);
            Mapping(c, r, sh') && SharedInv(sh') && Guarantee(c, sh, sh')
  {
    HandlerRuns(c, cn, sh);
    SLockHandling(c, cn, sh, cn.cl.stage.cmd);
  }

  lemma SLockHandling(c: ConnId, cn: Conn, sh: Shared, cmd: Cmd)
    requires Handling(c, cn, sh, cmd) && SharedInv(sh) && CanLock(cn, sh)
    ensures var (r, sh') := DoSLock(c, cn, sh);
            Mapping(c, r, sh') && SharedInv(sh') && Guarantee(c, sh, sh')
  {
    hide Mapping, Consistent, Stable;
    var (r, sh') := DoSLock(c, cn, sh);
    LockShared(c, sh, sh'.pool);
    HandlerMoved(c, r, sh', cmd);
  }

  /** A change of the pool by the holder of the lock, to its own `res` pointer only. */
  lemma PoolShared(c: ConnId, sh: Shared, pool: Pool)
    requires SharedInv(sh) && Holds(sh.pool, c) && PoolInv(sh.sizes, pool)
    requires !pool.lock.Unlocked? ==> pool.lock.who == c
    requires forall d :: d != c ==>
               && (d in sh.pool.now.owner <==> d in pool.now.owner)
               && (d in sh.pool.now.owner ==> pool.now.owner[d] == sh.pool.now.owner[d])
    ensures SharedInv(sh.(pool := pool)) && Guarantee(c, sh, sh.(pool := pool))
  {
  }

  lemma InSectionMoved(c: ConnId, cn: Conn, sh: Shared, pool: Pool, cmd: Cmd)
    requires Handling(c, cn, sh, cmd) && InSection(cn.sv) && Holds(pool, c)
    requires pool.lock.Taking? == sh.pool.lock.Taking? && pool.lock.Giving? == sh.pool.lock.Giving?
    ensures Mapping(c, cn, sh.(pool := pool))
  {
    HandlerMoved(c, cn, sh.(pool := pool), cmd);
  }

  lemma SStoreKeeps(c: ConnId, cn: Conn, sh: Shared)
    requires Local(cn) && Mapping(c, cn, sh) && SharedInv(sh)
    requires Holds(sh.pool, c) && InSection(cn.sv) && CanStore(sh.sizes, sh.pool)
    ensures var sh' := sh.(pool := Store(sh.sizes, sh.pool));
            Mapping(c, cn, sh') && SharedInv(sh') && Guarantee(c, sh, sh')
  {
    HandlerRuns(c, cn, sh);
    SStoreHandling(c, cn, sh, cn.cl.stage.cmd);
  }

  lemma SStoreHandling(c: ConnId, cn: Conn, sh: Shared, cmd: Cmd)
    requires Handling(c, cn, sh, cmd) && SharedInv(sh)
    requires Holds(sh.pool, c) && InSection(cn.sv) && CanStore(sh.sizes, sh.pool)
    ensures var sh' := sh.(pool := Store(sh.sizes, sh.pool));
            Mapping(c, cn, sh') && SharedInv(sh') && Guarantee(c, sh, sh')
  {
    var pool := Store(sh.sizes, sh.pool);
    StoreKeepsPool(sh.sizes, sh.pool);
    StoreFrame(sh.sizes, sh.pool);
    PoolShared(c, sh, pool);
    InSectionMoved(c, cn, sh, pool, cmd);
  }

  lemma UnlockRes(sizes: Sizes, p: Pool)
    requires PoolInv(sizes, p) && SectionDone(p)
    ensures p.lock.Taking? ==>
              p.lock.res == if p.lock.who in p.now.owner then Some(p.now.owner[p.lock.who]) else None
    ensures p.lock.Giving? ==> p.lock.who !in p.now.owner
  {
  }

  lemma SUnlockKeeps(c: ConnId, cn: Conn, sh: Shared)
    requires Local(cn) && Mapping(c, cn, sh) && SharedInv(sh) && CanUnlock(c, cn, sh)
    ensures var (r, sh') := DoSUnlock(c, cn, sh);
            Mapping(c, r, sh') && SharedInv(sh') && Guarantee(c, sh, sh')
  {
    HandlerRuns(c, cn, sh);
    SUnlockHandling(c, cn, sh, cn.cl.stage.cmd);
  }

  lemma UnlockShared(c: ConnId, sh: Shared)
    requires SharedInv(sh) && Holds(sh.pool, c) && SectionDone(sh.pool)
    ensures var sh' := sh.(pool := PoolModel.Unlock(sh.pool));
            SharedInv(sh') && Guarantee(c, sh, sh')
    ensures sh.pool.lock.Taking? ==> sh.pool.lock.res == UnitRes(sh, c)
    ensures sh.pool.lock.Giving? ==> c !in sh.pool.now.owner
  {
    UnlockIsAtomic(sh.sizes, sh.pool);
    UnlockRes(sh.sizes, sh.pool);
    PoolShared(c, sh, PoolModel.Unlock(sh.pool));
  }

  lemma UnlockMoved(c: ConnId, cn: Conn, sh: Shared, cmd: Cmd)
    requires Handling(c, cn, sh, cmd) && CanUnlock(c, cn, sh)
    requires sh.pool.lock.Taking? ==> sh.pool.lock.res == UnitRes(sh, c)
    requires sh.pool.lock.Giving? ==> c !in sh.pool.now.owner
    ensures var (r, sh') := DoSUnlock(c, cn, sh); Mapping(c, r, sh')
  {
    hide Mapping;
    var (r, sh') := DoSUnlock(c, cn, sh);
    HandlerMoved(c, r, sh', cmd);
  }

  lemma SUnlockHandling(c: ConnId, cn: Conn, sh: Shared, cmd: Cmd)
    requires Handling(c, cn, sh, cmd) && SharedInv(sh) && CanUnlock(c, cn, sh)
    ensures var (r, sh') := DoSUnlock(c, cn, sh);
            Mapping(c, r, sh') && SharedInv(sh') && Guarantee(c, sh, sh')
  {
    var (r, sh') := DoSUnlock(c, cn, sh);
    UnlockShared(c, sh);
    UnlockMoved(c, cn, sh, cmd);
  }

  /** Writing the fields of the resource a unit owns, and adding bytes where there were
      none, disturbs nobody. */
  lemma FieldsShared(c: ConnId, sh: Shared, r: ResId, f: Fields)
    requires SharedInv(sh) && Owns(c, sh, r)
    ensures SharedInv(sh.(fields := sh.fields[r := f])) && Guarantee(c, sh, sh.(fields := sh.fields[r := f]))
  {
    OwnersDistinct(sh.sizes, sh.pool);
    assert r in sh.pool.now.owner.Values;
  }

  lemma MapShared(c: ConnId, sh: Shared, addr: U64, data: seq<Byte>)
    requires SharedInv(sh) && LOWEST <= addr && Fresh(sh.mem, addr, |data|)
    ensures var sh' := sh.(mem := MapBytes(sh.mem, c, addr, data));
            SharedInv(sh') && Guarantee(c, sh, sh') && Tagged(sh'.mem, c, addr, |data|)
  {
    var sh' := sh.(mem := MapBytes(sh.mem, c, addr, data));
    forall k | k in sh.mrs ensures Tagged(sh'.mem, sh.mrs[k].pd, sh.mrs[k].addr, sh.mrs[k].len) {
      assert Tagged(sh.mem, sh.mrs[k].pd, sh.mrs[k].addr, sh.mrs[k].len);
    }
  }

  lemma StableChain(d: ConnId, a: Shared, b: Shared, e: Shared)
    requires Stable(d, a, b) && Stable(d, b, e)
    ensures Stable(d, a, e)
  {
  }

  lemma GuaranteeChain(c: ConnId, a: Shared, b: Shared, e: Shared)
    requires Guarantee(c, a, b) && Guarantee(c, b, e)
    ensures Guarantee(c, a, e)
  {
    forall d | d != c ensures Stable(d, a, e) { StableChain(d, a, b, e); }
  }

  lemma SMmapKeeps(c: ConnId, cn: Conn, sh: Shared, ok: bool, addr: U64, data: seq<Byte>)
    requires Local(cn) && Mapping(c, cn, sh) && SharedInv(sh) && CanMmap(c, cn, sh, ok, addr, data)
    ensures var (r, sh') := DoSMmap(c, cn, sh, ok, addr, data);
            Mapping(c, r, sh') && SharedInv(sh') && Guarantee(c, sh, sh')
  {
    HandlerRuns(c, cn, sh);
    SMmapShared(c, cn, sh, ok, addr, data, cn.cl.stage.cmd);
    SMmapHandling(c, cn, sh, ok, addr, data, cn.cl.stage.cmd);
  }

  lemma SMmapShared(c: ConnId, cn: Conn, sh: Shared, ok: bool, addr: U64, data: seq<Byte>, cmd: Cmd)
    requires Handling(c, cn, sh, cmd) && SharedInv(sh) && CanMmap(c, cn, sh, ok, addr, data)
    ensures var sh' := DoSMmap(c, cn, sh, ok, addr, data).1;
            SharedInv(sh') && Guarantee(c, sh, sh') && (ok ==> Tagged(sh'.mem, c, addr, |data|))
  {
    var sh' := DoSMmap(c, cn, sh, ok, addr, data).1;
    var mid := sh.(mem := sh'.mem);
    if ok { MapShared(c, sh, addr, data); } else { assert mid == sh; }
    var res := cn.sv.stage.res.value;
    FieldsShared(c, mid, res, sh'.fields[res]);
    assert sh' == mid.(fields := mid.fields[res := sh'.fields[res]]);
    GuaranteeChain(c, sh, mid, sh');
  }

  lemma SMmapHandling(c: ConnId, cn: Conn, sh: Shared, ok: bool, addr: U64, data: seq<Byte>, cmd: Cmd)
    requires Handling(c, cn, sh, cmd) && CanMmap(c, cn, sh, ok, addr, data)
    requires Holds(sh.pool, c) <==> InSection(cn.sv)
    requires ok ==> Tagged(DoSMmap(c, cn, sh, ok, addr, data).1.mem, c, addr, |data|)
    ensures var (r, sh') := DoSMmap(c, cn, sh, ok, addr, data); Mapping(c, r, sh')
  {
    var (r, sh') := DoSMmap(c, cn, sh, ok, addr, data);
    HandlerMoved(c, r, sh', cmd);
  }

  /** Adding a registration over one's own bytes disturbs nobody. */
  lemma RegShared(c: ConnId, sh: Shared, rkey: U32, mr: Mr)
    requires SharedInv(sh) && rkey !in sh.mrs && mr.pd == c && Tagged(sh.mem, c, mr.addr, mr.len)
    ensures SharedInv(sh.(mrs := sh.mrs[rkey := mr])) && Guarantee(c, sh, sh.(mrs := sh.mrs[rkey := mr]))
  {
  }

  /** Removing bytes that carry one's own tag, or none at all, disturbs nobody, provided
      one has no registration left. */
  lemma UnmapShared(c: ConnId, sh: Shared, addr: nat, len: int)
    requires SharedInv(sh) && NoMr(c, sh)
    requires Tagged(sh.mem, c, addr, len) || addr + len <= LOWEST
    ensures var sh' := sh.(mem := UnmapBytes(sh.mem, addr, len));
            SharedInv(sh') && Guarantee(c, sh, sh')
  {
    var sh' := sh.(mem := UnmapBytes(sh.mem, addr, len));
    forall k, a: nat | k in sh.mrs && sh.mrs[k].addr <= a < sh.mrs[k].addr + sh.mrs[k].len
      ensures a in sh'.mem && sh'.mem[a].tag == sh.mrs[k].pd
    {
      assert Tagged(sh.mem, sh.mrs[k].pd, sh.mrs[k].addr, sh.mrs[k].len);
      assert a in sh.mem && sh.mem[a].tag != c && LOWEST <= a;
    }
  }

  lemma SRegMrKeeps(c: ConnId, cn: Conn, sh: Shared, ok: bool, rkey: U32)
    requires Local(cn) && Mapping(c, cn, sh) && SharedInv(sh) && CanRegMr(cn, sh, ok, rkey)
    ensures var (r, sh') := DoSRegMr(c, cn, sh, ok, rkey);
            Mapping(c, r, sh') && SharedInv(sh') && Guarantee(c, sh, sh')
  {
    HandlerRuns(c, cn, sh);
    SRegMrShared(c, cn, sh, ok, rkey, cn.cl.stage.cmd);
    SRegMrHandling(c, cn, sh, ok, rkey, cn.cl.stage.cmd);
  }

  lemma SRegMrShared(c: ConnId, cn: Conn, sh: Shared, ok: bool, rkey: U32, cmd: Cmd)
    requires Handling(c, cn, sh, cmd) && SharedInv(sh) && CanRegMr(cn, sh, ok, rkey)
    ensures var sh' := DoSRegMr(c, cn, sh, ok, rkey).1;
            SharedInv(sh') && Guarantee(c, sh, sh')
  {
    var sh' := DoSRegMr(c, cn, sh, ok, rkey).1;
    var st := cn.sv.stage;
    var mid := sh.(mrs := sh'.mrs, mem := sh'.mem);
    if ok {
      RegShared(c, sh, rkey, Mr(c, st.addr, st.q.len));
      assert mid == sh.(mrs := sh.mrs[rkey := Mr(c, st.addr, st.q.len)]);
    } else {
      UnmapShared(c, sh, st.addr, st.q.len);
      assert mid == sh.(mem := UnmapBytes(sh.mem, st.addr, st.q.len));
    }
    FieldsShared(c, mid, st.r, sh'.fields[st.r]);
    assert sh' == mid.(fields := mid.fields[st.r := sh'.fields[st.r]]);
    GuaranteeChain(c, sh, mid, sh');
  }

  lemma SRegMrHandling(c: ConnId, cn: Conn, sh: Shared, ok: bool, rkey: U32, cmd: Cmd)
    requires Handling(c, cn, sh, cmd) && CanRegMr(cn, sh, ok, rkey)
    requires Holds(sh.pool, c) <==> InSection(cn.sv)
    ensures var (r, sh') := DoSRegMr(c, cn, sh, ok, rkey); Mapping(c, r, sh')
  {
    hide Mapping;
    var (r, sh') := DoSRegMr(c, cn, sh, ok, rkey);
    if ok { assert Live(c, sh', rkey, cn.sv.stage.addr, cn.sv.stage.q.len); }
    HandlerMoved(c, r, sh', cmd);
  }

  lemma SDeregKeeps(c: ConnId, cn: Conn, sh: Shared)
    requires Local(cn) && Mapping(c, cn, sh) && SharedInv(sh) && CanDereg(cn, sh)
    ensures var (r, sh') := DoSDereg(cn, sh);
            Mapping(c, r, sh') && SharedInv(sh') && Guarantee(c, sh, sh')
  {
    HandlerRuns(c, cn, sh);
    SDeregHandling(c, cn, sh, cn.cl.stage.cmd);
  }

  lemma DeregShared(c: ConnId, sh: Shared, rkey: U32)
    requires SharedInv(sh) && (rkey in sh.mrs ==> sh.mrs[rkey].pd == c)
    ensures SharedInv(sh.(mrs := sh.mrs - {rkey})) && Guarantee(c, sh, sh.(mrs := sh.mrs - {rkey}))
  {
  }

  lemma SDeregHandling(c: ConnId, cn: Conn, sh: Shared, cmd: Cmd)
    requires Handling(c, cn, sh, cmd) && SharedInv(sh) && CanDereg(cn, sh)
    requires Holds(sh.pool, c) <==> InSection(cn.sv)
    ensures var (r, sh') := DoSDereg(cn, sh);
            Mapping(c, r, sh') && SharedInv(sh') && Guarantee(c, sh, sh')
  {
    var (r, sh') := DoSDereg(cn, sh);
    var res := cn.sv.stage.res.value;
    var rkey := sh.fields[res].mr.value;
    var mid := sh.(mrs := sh.mrs - {rkey});
    DeregShared(c, sh, rkey);
    FieldsShared(c, mid, res, sh'.fields[res]);
    assert sh' == mid.(fields := mid.fields[res := sh'.fields[res]]);
    GuaranteeChain(c, sh, mid, sh');
    DeregMoved(c, cn, sh, cmd);
  }

  lemma DeregMoved(c: ConnId, cn: Conn, sh: Shared, cmd: Cmd)
    requires Handling(c, cn, sh, cmd) && CanDereg(cn, sh)
    requires Holds(sh.pool, c) <==> InSection(cn.sv)
    ensures var (r, sh') := DoSDereg(cn, sh); Mapping(c, r, sh')
  {
    var (r, sh') := DoSDereg(cn, sh);
    HandlerMoved(c, r, sh', cmd);
  }

  lemma SMunmapKeeps(c: ConnId, cn: Conn, sh: Shared, ok: bool)
    requires Local(cn) && Mapping(c, cn, sh) && SharedInv(sh) && CanMunmap(cn)
    ensures var (r, sh') := DoSMunmap(cn, sh, ok);
            Mapping(c, r, sh') && SharedInv(sh') && Guarantee(c, sh, sh')
  {
    HandlerRuns(c, cn, sh);
    SMunmapHandling(c, cn, sh, ok, cn.cl.stage.cmd);
  }

  lemma SMunmapHandling(c: ConnId, cn: Conn, sh: Shared, ok: bool, cmd: Cmd)
    requires Handling(c, cn, sh, cmd) && SharedInv(sh) && CanMunmap(cn)
    requires Holds(sh.pool, c) <==> InSection(cn.sv)
    ensures var (r, sh') := DoSMunmap(cn, sh, ok);
            Mapping(c, r, sh') && SharedInv(sh') && Guarantee(c, sh, sh')
  {
    hide SharedInv, Mapping;
    var (r, sh') := DoSMunmap(cn, sh, ok);
    if ok { UnmapShared(c, sh, cn.sv.stage.q.addr, cn.sv.stage.q.len); }
    HandlerMoved(c, r, sh', cmd);
  }
}
