/** What a connection keeps mapped on the server: exactly the region of its registration,
    in a resource larger than it, and nothing once unmap has answered 0 or a map has
    failed. */
module Footprint {
  import opened Wire
  import opened PoolModel
  import opened System
  import opened Invariant
  import opened SharedSteps
  import opened Induction
  import opened Safety
  import opened Termination
  import opened Progress

  /** No byte of server memory was mapped for c. */
  ghost predicate NoBytes(c: ConnId, mem: Memory) { forall a :: a in mem ==> mem[a].tag != c }

  /** All bytes mapped for c lie in the range. */
  ghost predicate Within(c: ConnId, mem: Memory, addr: int, len: int)
  {
    forall a :: a in mem && mem[a].tag == c ==> addr <= a < addr + len
  }

  /** The server may have failed to unmap. */
  predicate Unmapping(cl: Client) { cl.gaveUp || cl.stage == CWait(Unmap) || cl.stage == CWoken(Unmap) }

  ghost predicate Footprint(c: ConnId, cn: Conn, sh: Shared)
  {
    && (c !in sh.pool.now.owner ==> NoBytes(c, sh.mem))
    && (forall k :: k in sh.mrs && sh.mrs[k].pd == c ==> Within(c, sh.mem, sh.mrs[k].addr, sh.mrs[k].len))
    && HandlerPrint(c, cn.sv.stage, sh.mem)
    && (NoMr(c, sh) && !Unmapping(cn.cl) && !cn.sv.stage.SMmapped? ==> NoBytes(c, sh.mem))
  }

  ghost predicate HandlerPrint(c: ConnId, st: SStage, mem: Memory)
  {
    match st
    case SMmapped(q, _, addr, ok) => q.MapReq? && (if ok then Within(c, mem, addr, q.len) else NoBytes(c, mem))
    case SUnreg(q, _) => q.UnmapReq? && Within(c, mem, q.addr, q.len)
    case SUnmapped(_, _) => NoBytes(c, mem)
    case SGiving(_) => NoBytes(c, mem)
    case _ => true
  }

  /** A resource taken for a map is larger than what is mapped of it. */
  ghost predicate Fits(c: ConnId, cn: Conn, sh: Shared)
  {
    && (forall k :: k in sh.mrs && sh.mrs[k].pd == c ==> Larger(c, sh, sh.mrs[k].len))
    && match cn.sv.stage
       case SMapLocked(q) => q.MapReq? && sh.pool.lock.Taking? && sh.pool.lock.len == q.len
       case SMapDone(q, res) => q.MapReq? && (res.Some? ==> Larger(c, sh, q.len))
       case SMmapped(q, _, _, _) => q.MapReq? && Larger(c, sh, q.len)
       case _ => true
  }

  predicate Larger(c: ConnId, sh: Shared, len: int)
  {
    && c in sh.pool.now.owner && sh.pool.now.owner[c] in sh.sizes
    && sh.sizes[sh.pool.now.owner[c]] > len
  }

  ghost predicate Room(c: ConnId, cn: Conn, sh: Shared) { Footprint(c, cn, sh) && Fits(c, cn, sh) }

  // ---- the steps of the connection itself

  /** Nothing changes in what the server holds for c, and the client, if it is back from an
      unmap, knows that the unmap succeeded. */
  lemma QuietRoom(c: ConnId, cn: Conn, sh: Shared, r: Conn)
    requires Room(c, cn, sh)
    requires r.sv.stage == cn.sv.stage || (!InBody(r.sv.stage) && !cn.sv.stage.SMmapped?)
             || (r.sv.stage.SBody? && !cn.sv.stage.SMmapped?)
    requires Unmapping(cn.cl) && !Unmapping(r.cl) ==> c !in sh.pool.now.owner
    ensures Room(c, r, sh)
  {
    hide NoBytes, Within, Larger, NoMr;
  }

  lemma IssueRoom(c: ConnId, cn: Conn, sh: Shared, a: Step)
    requires CmdInv(cn.cl) && Room(c, cn, sh) && CanIssue(c, cn, sh, a)
    ensures Room(c, DoIssue(c, cn, sh, a).0, DoIssue(c, cn, sh, a).1)
  {
    hide Room, PackRequest, ReqOf, RecvRoom, SendRoom;
    IssueServer(c, cn, sh, a);
    QuietRoom(c, cn, sh, DoIssue(c, cn, sh, a).0);
  }

  lemma UnpackRoom(c: ConnId, cn: Conn, sh: Shared)
    requires Local(cn) && Mapping(c, cn, sh) && cn.cl.stage.CWoken?
    ensures Unmapping(cn.cl) && !Unmapping(DoCUnpack(cn).cl) ==> c !in sh.pool.now.owner
  {
    hide Shape, Credits, GoodTrace, HandlerHas, HandlerMap, Live, GetU32, GetU64;
  }

  lemma FinishRoom(c: ConnId, cn: Conn, sh: Shared, a: Step)
    requires Local(cn) && Mapping(c, cn, sh) && Room(c, cn, sh) && CanFinish(c, cn, sh, a)
    ensures Room(c, DoFinish(c, cn, sh, a).0, DoFinish(c, cn, sh, a).1)
  {
    hide Local, Mapping, Room, DoCUnpack, SendRoom;
    FinishServer(c, cn, sh, a);
    if a.CUnpack? { UnpackRoom(c, cn, sh); }
    QuietRoom(c, cn, sh, DoFinish(c, cn, sh, a).0);
  }

  /** An RDMA WRITE changes bytes, not what is mapped for whom. */
  lemma WritePrint(c: ConnId, mem: Memory, at: nat, data: seq<Byte>)
    ensures NoBytes(c, WriteBytes(mem, at, data)) == NoBytes(c, mem)
    ensures forall addr: int, len: int :: Within(c, WriteBytes(mem, at, data), addr, len) == Within(c, mem, addr, len)
  {
    var m := WriteBytes(mem, at, data);
    assert m.Keys == mem.Keys && forall a :: a in mem ==> m[a].tag == mem[a].tag;
    forall addr: int, len: int ensures Within(c, m, addr, len) == Within(c, mem, addr, len) {
    }
  }

  lemma SameBytesRoom(c: ConnId, cn: Conn, sh: Shared, mem: Memory)
    requires Room(c, cn, sh) && NoBytes(c, mem) == NoBytes(c, sh.mem)
    requires forall addr: int, len: int :: Within(c, mem, addr, len) == Within(c, sh.mem, addr, len)
    ensures Room(c, cn, sh.(mem := mem))
  {
    hide NoBytes, Within;
  }

  lemma ExecMem(c: ConnId, cn: Conn, sh: Shared)
    requires CanExec(cn)
    ensures var sh' := DoCExec(c, cn, sh).1;
            sh' == sh || exists at: nat, data :: sh' == sh.(mem := WriteBytes(sh.mem, at, data))
  {
    hide Access, WriteBytes;
  }

  lemma AdapterRoom(c: ConnId, cn: Conn, sh: Shared, a: Step)
    requires Room(c, cn, sh) && CanAdapter(c, cn, sh, a)
    ensures Room(c, DoAdapter(c, cn, sh, a).0, DoAdapter(c, cn, sh, a).1)
  {
    hide Room, DoCExec, WriteBytes;
    AdapterFrame(c, cn, sh, a);
    AdapterGave(c, cn, sh, a);
    var (r, sh') := DoAdapter(c, cn, sh, a);
    QuietRoom(c, cn, sh, r);
    if a.CExec? && sh' != sh {
      ExecMem(c, cn, sh);
      var at: nat, data :| sh' == sh.(mem := WriteBytes(sh.mem, at, data));
      WritePrint(c, sh.mem, at, data);
      SameBytesRoom(c, r, sh, sh'.mem);
    }
  }

  lemma AdapterGave(c: ConnId, cn: Conn, sh: Shared, a: Step)
    requires CanAdapter(c, cn, sh, a)
    ensures DoAdapter(c, cn, sh, a).0.cl.gaveUp == cn.cl.gaveUp
    ensures !a.CExec? ==> DoAdapter(c, cn, sh, a).1 == sh
  {
    hide Access, WriteBytes;
  }

  lemma HandleStage(cn: Conn)
    requires CanHandle(cn.sv)
    ensures var r := DoSHandle(cn); r.cl == cn.cl && !InBody(r.sv.stage) && !cn.sv.stage.SMmapped?
  {
    hide GetU32;
  }

  lemma PollStage(cn: Conn, n: nat)
    ensures var r := DoSPoll(cn, n); r.cl == cn.cl && r.sv.stage == cn.sv.stage
  {
  }

  lemma ServerStages(c: ConnId, cn: Conn, sh: Shared, a: Step)
    requires CanServer(c, cn, sh, a)
    ensures var (r, sh') := DoServer(c, cn, sh, a);
            && sh' == sh && r.cl.stage == cn.cl.stage && r.cl.gaveUp == cn.cl.gaveUp
            && (r.sv.stage == cn.sv.stage || (!cn.sv.stage.SMmapped? && (!InBody(r.sv.stage) || r.sv.stage.SBody?)))
  {
    hide PackResponse, HandlerView, DoSHandle, DoSPoll;
    if a.SHandle? { HandleStage(cn); }
    if a.SPoll? { PollStage(cn, a.n); }
  }

  lemma ServerRoom(c: ConnId, cn: Conn, sh: Shared, a: Step)
    requires Room(c, cn, sh) && CanServer(c, cn, sh, a)
    ensures Room(c, DoServer(c, cn, sh, a).0, DoServer(c, cn, sh, a).1)
  {
    hide Room, CanServer, DoServer;
    ServerStages(c, cn, sh, a);
    QuietRoom(c, cn, sh, DoServer(c, cn, sh, a).0);
  }

  /** The lock is taken by a map that holds nothing or by an unmap that has unmapped. */
  lemma LockRoom(c: ConnId, cn: Conn, sh: Shared, cmd: Cmd)
    requires Handling(c, cn, sh, cmd) && Room(c, cn, sh) && CanLock(cn, sh)
    ensures Room(c, DoSLock(c, cn, sh).0, DoSLock(c, cn, sh).1)
  {
    hide NoBytes, Within, Pending, Arrivals, Outcome;
  }

  lemma StoreRoom(c: ConnId, cn: Conn, sh: Shared, cmd: Cmd)
    requires Handling(c, cn, sh, cmd) && Room(c, cn, sh)
    requires Holds(sh.pool, c) && InSection(cn.sv) && CanStore(sh.sizes, sh.pool)
    ensures Room(c, cn, sh.(pool := Store(sh.sizes, sh.pool)))
  {
    hide NoBytes, Within, Pending, Arrivals, Outcome, Chosen, Without, Listed;
  }

  lemma ChosenIsLarger(sizes: Sizes, s: Shot, len: int)
    requires Listed(sizes, s.list)
    ensures var r := Chosen(sizes, s, len); r.Some? ==> r.value in sizes && sizes[r.value] > len
  {
  }

  /** The resource that a finished map section has found is larger than the length. */
  lemma FoundIsLarger(sh: Shared)
    requires PoolInv(sh.sizes, sh.pool) && SectionDone(sh.pool) && sh.pool.lock.Taking? && sh.pool.lock.res.Some?
    ensures Larger(sh.pool.lock.who, sh, sh.pool.lock.len)
  {
    hide Chosen, Take, Injective, NoDup, SumSeq, SumSet;
    ChosenIsLarger(sh.sizes, sh.pool.lock.was, sh.pool.lock.len);
  }

  lemma UnlockRoom(c: ConnId, cn: Conn, sh: Shared, cmd: Cmd)
    requires Handling(c, cn, sh, cmd) && Room(c, cn, sh) && CanUnlock(c, cn, sh) && PoolInv(sh.sizes, sh.pool)
    ensures Room(c, DoSUnlock(c, cn, sh).0, DoSUnlock(c, cn, sh).1)
  {
    hide NoBytes, Within, Pending, Arrivals, Outcome, PoolInv;
    if sh.pool.lock.Taking? && sh.pool.lock.res.Some? { FoundIsLarger(sh); }
  }

  lemma MmapRoom(c: ConnId, cn: Conn, sh: Shared, cmd: Cmd, ok: bool, addr: U64, data: seq<Byte>)
    requires Handling(c, cn, sh, cmd) && Room(c, cn, sh) && CanMmap(c, cn, sh, ok, addr, data)
    ensures Room(c, DoSMmap(c, cn, sh, ok, addr, data).0, DoSMmap(c, cn, sh, ok, addr, data).1)
  {
    hide Pending, Arrivals, Outcome, Fresh;
    assert NoBytes(c, sh.mem);
  }

  lemma RegMrRoom(c: ConnId, cn: Conn, sh: Shared, cmd: Cmd, ok: bool, rkey: U32)
    requires Handling(c, cn, sh, cmd) && Room(c, cn, sh) && CanRegMr(cn, sh, ok, rkey)
    ensures Room(c, DoSRegMr(c, cn, sh, ok, rkey).0, DoSRegMr(c, cn, sh, ok, rkey).1)
  {
    hide Pending, Arrivals, Outcome;
    var sh' := DoSRegMr(c, cn, sh, ok, rkey).1;
    if ok { assert rkey in sh'.mrs && sh'.mrs[rkey].pd == c; } else { assert NoBytes(c, sh'.mem); }
  }

  lemma DeregRoom(c: ConnId, cn: Conn, sh: Shared, cmd: Cmd)
    requires Handling(c, cn, sh, cmd) && Room(c, cn, sh) && CanDereg(cn, sh)
    ensures Room(c, DoSDereg(cn, sh).0, DoSDereg(cn, sh).1)
  {
    hide Pending, Arrivals, Outcome, NoBytes, Within, Tagged;
  }

  lemma MunmapRoom(c: ConnId, cn: Conn, sh: Shared, cmd: Cmd, ok: bool)
    requires Handling(c, cn, sh, cmd) && Room(c, cn, sh) && CanMunmap(cn)
    ensures Room(c, DoSMunmap(cn, sh, ok).0, DoSMunmap(cn, sh, ok).1)
  {
    hide Pending, Arrivals, Outcome, Tagged;
    if ok { assert NoBytes(c, DoSMunmap(cn, sh, ok).1.mem); }
  }

  lemma HandlerRoom(c: ConnId, cn: Conn, sh: Shared, a: Step)
    requires Local(cn) && Mapping(c, cn, sh) && SharedInv(sh) && Room(c, cn, sh) && CanHandler(c, cn, sh, a)
    ensures Room(c, DoHandler(c, cn, sh, a).0, DoHandler(c, cn, sh, a).1)
  {
    hide Local, Mapping, SharedInv, Room, Handling, CanLock, CanUnlock, CanStore, CanMmap, CanRegMr, CanDereg, CanMunmap,
      CanMsync, DoSLock, DoSUnlock, Store, DoSMmap, DoSRegMr, DoSDereg, DoSMunmap, PoolInv;
    HandlerInBody(c, cn, sh, a);
    HandlerRuns(c, cn, sh);
    SharedPool(sh);
    var cmd := cn.cl.stage.cmd;
    match a
    case SLock => LockRoom(c, cn, sh, cmd);
    case SStore => StoreRoom(c, cn, sh, cmd);
    case SUnlock => UnlockRoom(c, cn, sh, cmd);
    case SMmap(ok, addr, data) => MmapRoom(c, cn, sh, cmd, ok, addr, data);
    case SRegMr(ok, rkey) => RegMrRoom(c, cn, sh, cmd, ok, rkey);
    case SDereg => DeregRoom(c, cn, sh, cmd);
    case SMunmap(ok) => MunmapRoom(c, cn, sh, cmd, ok);
    case SCheck(_, _) => AnswerRoom(c, cn, sh, a);
    case SMsync(_) => AnswerRoom(c, cn, sh, a);
  }

  lemma AnswerRoom(c: ConnId, cn: Conn, sh: Shared, a: Step)
    requires CanHandler(c, cn, sh, a) && (a.SCheck? || a.SMsync?) && Room(c, cn, sh)
    ensures Room(c, DoHandler(c, cn, sh, a).0, DoHandler(c, cn, sh, a).1)
  {
    hide Room, Mapped;
    QuietRoom(c, cn, sh, DoHandler(c, cn, sh, a).0);
  }

  lemma StepRoom(c: ConnId, cn: Conn, sh: Shared, a: Step)
    requires ConnInv(c, cn, sh) && SharedInv(sh) && Room(c, cn, sh) && Enabled(c, cn, sh, a)
    ensures Room(c, Apply(c, cn, sh, a).0, Apply(c, cn, sh, a).1)
  {
    hide Shape, Content, Credits, CmdInv, Mapping, SharedInv, Room, DoIssue, DoFinish, DoAdapter, DoServer, DoHandler,
      CanIssue, CanFinish, CanAdapter, CanServer, CanHandler;
    if Issues(a) {
      IssueRoom(c, cn, sh, a);
    } else if Finishes(a) {
      FinishRoom(c, cn, sh, a);
    } else if ClientAdapter(a) {
      AdapterRoom(c, cn, sh, a);
    } else if Handlers(a) {
      HandlerRoom(c, cn, sh, a);
    } else {
      ServerRoom(c, cn, sh, a);
    }
  }

  // ---- the steps of other connections

  /** A step maps bytes for its own connection only, and moves no others. */
  ghost predicate OwnBytes(c: ConnId, mem: Memory, mem': Memory)
  {
    forall a :: a in mem' && mem'[a].tag != c ==> a in mem && mem[a].tag == mem'[a].tag
  }

  lemma HandlerOwnBytes(c: ConnId, cn: Conn, sh: Shared, a: Step)
    requires CanHandler(c, cn, sh, a)
    ensures OwnBytes(c, sh.mem, DoHandler(c, cn, sh, a).1.mem)
  {
    hide Fresh, Mapped, Store, CanStore;
  }

  lemma AdapterOwnBytes(c: ConnId, cn: Conn, sh: Shared, a: Step)
    requires CanAdapter(c, cn, sh, a)
    ensures OwnBytes(c, sh.mem, DoAdapter(c, cn, sh, a).1.mem)
  {
    hide Access;
  }

  lemma StepOwnBytes(c: ConnId, cn: Conn, sh: Shared, a: Step)
    requires Enabled(c, cn, sh, a)
    ensures OwnBytes(c, sh.mem, Apply(c, cn, sh, a).1.mem)
  {
    hide DoIssue, DoFinish, DoAdapter, DoServer, DoHandler, CanIssue, CanFinish, CanAdapter, CanServer, CanHandler;
    if Issues(a) {
      IssueServer(c, cn, sh, a);
    } else if Finishes(a) {
      FinishServer(c, cn, sh, a);
    } else if ClientAdapter(a) {
      AdapterOwnBytes(c, cn, sh, a);
    } else if Handlers(a) {
      HandlerOwnBytes(c, cn, sh, a);
    } else {
      ServerQuiet(c, cn, sh, a);
    }
  }

  lemma OtherRoom(d: ConnId, cn: Conn, sh: Shared, sh': Shared, c: ConnId)
    requires Room(d, cn, sh) && Stable(d, sh, sh') && c != d && OwnBytes(c, sh.mem, sh'.mem)
    requires InSection(cn.sv) ==> Holds(sh.pool, d)
    ensures Room(d, cn, sh')
  {
    assert NoMr(d, sh') ==> NoMr(d, sh);
    assert NoBytes(d, sh.mem) ==> NoBytes(d, sh'.mem);
    assert forall addr: int, len: int :: Within(d, sh.mem, addr, len) ==> Within(d, sh'.mem, addr, len);
    hide NoBytes, Within;
  }

  lemma NextRoom(s: State, c: ConnId, a: Step, d: ConnId)
    requires Inv(s) && CanStep(s, c, a) && d in s.conns && Room(d, s.conns[d], s.sh)
    ensures Room(d, Next(s, c, a).conns[d], Next(s, c, a).sh)
  {
    hide Local, StageMap, SharedInv, Enabled, Apply, Room, Stable;
    if d == c {
      StepRoom(c, s.conns[c], s.sh, a);
    } else {
      NextKeeps(s, c, a);
      StepOwnBytes(c, s.conns[c], s.sh, a);
      OtherRoom(d, s.conns[d], s.sh, Next(s, c, a).sh, c);
    }
  }

  lemma {:induction false} RunRoom(run: seq<State>, i: nat, c: ConnId)
    requires IsRun(run) && i < |run| && c in run[i].conns
    ensures Room(c, run[i].conns[c], run[i].sh)
  {
    hide Next, CanStep, Inv;
    if i == 0 {
      var req, rsp :| run[0].conns[c] == NewConn(req, rsp);
    } else {
      hide Room;
      assert OneStep(run[i - 1], run[i - 1 + 1]);
      var d, a :| CanStep(run[i - 1], d, a) && run[i] == Next(run[i - 1], d, a);
      NextConns(run[i - 1], d, a);
      RunInv(run, i - 1);
      RunRoom(run, i - 1, c);
      NextRoom(run[i - 1], d, a, c);
    }
  }

  lemma ReachableRoom(s: State, c: ConnId)
    requires Reachable(s) && c in s.conns
    ensures Room(c, s.conns[c], s.sh)
  {
    hide Initial, OneStep, Room;
    var run :| IsRun(run) && run[|run| - 1] == s;
    RunRoom(run, |run| - 1, c);
  }

  // ---- what it means

  /** When rpmem_unmap returns 0 the server keeps no byte of the mapping, nor any other of
      this connection. */
  lemma UnmapRemoves(s: State, c: ConnId)
    requires Reachable(s) && c in s.conns && s.conns[c].cl.stage == CWoken(Unmap)
    requires UnpackResponse(UNMAP_RSP, s.conns[c].cl.rsp) == Accepted(UnmapRsp(0))
    ensures forall a :: a in s.sh.mem ==> s.sh.mem[a].tag != c
  {
    hide Reachable, Fits, HandlerPrint, Within;
    UnmapReturns(s, c);
    ReachableRoom(s, c);
  }

  /** A unit that holds no resource has no byte mapped, in every reachable state. */
  lemma PooledIsUnmapped(s: State, c: ConnId)
    requires Reachable(s) && c in s.conns && c !in s.sh.pool.now.owner
    ensures forall a :: a in s.sh.mem ==> s.sh.mem[a].tag != c
  {
    hide Reachable, Fits, HandlerPrint, Within;
    ReachableRoom(s, c);
  }

  /** While mapped, the bytes the server keeps for a connection are exactly those of the
      region its handle names, and the resource it holds is larger than the region. */
  lemma MappedExactly(s: State, c: ConnId)
    requires Reachable(s) && c in s.conns && s.conns[c].cl.mapped
    ensures var mr := s.conns[c].cl.mr;
            && (forall a: nat :: a in s.sh.mem && s.sh.mem[a].tag == c <==> mr.raddr <= a < mr.raddr + mr.len)
            && c in s.sh.pool.now.owner && s.sh.pool.now.owner[c] in s.sh.sizes
            && s.sh.sizes[s.sh.pool.now.owner[c]] > mr.len
  {
    hide Reachable, HandlerPrint;
    HandleAgreement(s, c);
    ReachableRoom(s, c);
    var mr := s.conns[c].cl.mr;
    assert Within(c, s.sh.mem, mr.raddr, mr.len);
  }

  /** A map that got no registration has left nothing mapped, whichever of its calls failed. */
  lemma FailedMapLeavesNothing(s: State, c: ConnId)
    requires Reachable(s) && c in s.conns && NoMr(c, s.sh)
    requires var st := s.conns[c].cl.stage; st.CMapDec? || st.CReadWait? || (st.CWoken? && st.cmd.Map?)
    ensures forall a :: a in s.sh.mem ==> s.sh.mem[a].tag != c
  {
    hide Reachable, Fits, HandlerPrint, Within, SharedInv, Shape, Content, Credits, Mapping;
    ReachableConn(s, c);
    ReachableRoom(s, c);
    AfterMap(s, c);
  }

  lemma AfterMap(s: State, c: ConnId)
    requires Reachable(s) && c in s.conns
    requires var st := s.conns[c].cl.stage; st.CMapDec? || st.CReadWait? || (st.CWoken? && st.cmd.Map?)
    ensures !s.conns[c].cl.gaveUp && !s.conns[c].sv.stage.SMmapped?
  {
    hide Reachable, SharedInv, Shape, Credits, Mapping, GoodTrace;
    ReachableConn(s, c);
  }

  /** The unmap handler's ibv_dereg_mr removes the connection's one registration and no
      other; the address and length of its resource are cleared with it. */
  lemma DeregRemoves(s: State, c: ConnId)
    requires Reachable(s) && CanStep(s, c, SDereg)
    ensures var t, r := Next(s, c, SDereg), s.conns[c].sv.stage.res;
            && NoMr(c, t.sh)
            && (forall k :: k in s.sh.mrs && s.sh.mrs[k].pd != c ==> k in t.sh.mrs && t.sh.mrs[k] == s.sh.mrs[k])
            && r.Some? && r.value in t.sh.fields
            && t.sh.fields[r.value].addr == 0 && t.sh.fields[r.value].mapLen == 0
  {
    hide Reachable, CanIssue, CanFinish, CanAdapter, CanServer, DoIssue, DoFinish, DoAdapter, DoServer;
    UnmapNamesMapping(s, c);
  }

  /** Its munmap then removes exactly the bytes of this connection, and every other byte
      keeps its value. */
  lemma MunmapRemoves(s: State, c: ConnId)
    requires Reachable(s) && CanStep(s, c, SMunmap(true))
    ensures var t := Next(s, c, SMunmap(true));
            && (forall a :: a in t.sh.mem <==> a in s.sh.mem && s.sh.mem[a].tag != c)
            && (forall a :: a in t.sh.mem ==> t.sh.mem[a] == s.sh.mem[a])
  {
    hide Reachable, SharedInv, Local, Mapping, HandlerMap, HandlerHas, Fits,
      CanIssue, CanFinish, CanAdapter, CanServer, DoIssue, DoFinish, DoAdapter, DoServer;
    ReachableConn(s, c);
    ReachableRoom(s, c);
    HandlerRuns(c, s.conns[c], s.sh);
    UnregTagged(c, s.conns[c], s.sh, s.conns[c].cl.stage.cmd);
  }

  lemma UnregTagged(c: ConnId, cn: Conn, sh: Shared, cmd: Cmd)
    requires Handling(c, cn, sh, cmd) && cn.sv.stage.SUnreg?
    ensures Tagged(sh.mem, c, cn.sv.stage.q.addr, cn.sv.stage.q.len)
  {
  }

  /** When ibv_reg_mr fails the handler unmaps what it has mapped, leaves the resource
      without a registration and answers with the address 0. */
  lemma RegMrFails(s: State, c: ConnId, rkey: U32)
    requires Reachable(s) && CanStep(s, c, SRegMr(false, rkey))
    ensures var t, r := Next(s, c, SRegMr(false, rkey)), s.conns[c].sv.stage.r;
            && (forall a :: a in t.sh.mem ==> t.sh.mem[a].tag != c)
            && NoMr(c, t.sh) && t.sh.fields[r].mr.None?
            && t.conns[c].sv.stage.SReply? && t.conns[c].sv.stage.rsp == MapRsp(rkey, 0)
  {
    hide Reachable, SharedInv, Local, Mapping, HandlerHas, Fits, CanIssue, CanFinish, CanAdapter, CanServer;
    ReachableConn(s, c);
    ReachableRoom(s, c);
    HandlerRuns(c, s.conns[c], s.sh);
  }
}
