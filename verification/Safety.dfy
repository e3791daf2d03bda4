/** What the invariant says in rpmem's own terms, for every state of every run, over all
    interleavings of any number of connections. */
module Safety {
  import opened Wire
  import opened PoolModel
  import opened System
  import opened Invariant
  import opened SharedSteps
  import opened Induction

  ghost predicate Reachable(s: State)
  {
    exists run :: IsRun(run) && run[|run| - 1] == s
  }

  lemma PrefixReachable(run: seq<State>, i: nat)
    requires IsRun(run) && i < |run|
    ensures Reachable(run[i])
  {
    hide Initial, OneStep;
    var pre := run[..i + 1];
    assert pre[|pre| - 1] == run[i];
    assert IsRun(pre) by {
      forall k | 0 <= k < |pre| - 1 ensures OneStep(pre[k], pre[k + 1]) {
        assert OneStep(run[k], run[k + 1]);
      }
    }
  }

  lemma NextConns(s: State, c: ConnId, a: Step)
    requires CanStep(s, c, a)
    ensures Next(s, c, a).conns.Keys == s.conns.Keys
  {
    hide Enabled, Apply;
  }

  lemma ReachableInv(s: State)
    requires Reachable(s)
    ensures Inv(s)
  {
    var run :| IsRun(run) && run[|run| - 1] == s;
    RunInv(run, |run| - 1);
  }

  lemma ReachableConn(s: State, c: ConnId)
    requires Reachable(s) && c in s.conns
    ensures ConnInv(c, s.conns[c], s.sh) && SharedInv(s.sh)
  {
    hide Reachable, ConnInv, SharedInv;
    ReachableInv(s);
  }

  // ---- mirror semantics

  /** When rpmem_map returns its buffer, it was woken by the READ, the unit holds a
      resource whose one registration in this protection domain covers exactly the mapped
      range, the handle names it, and the buffer equals the server's region. MAP_RSP
      carries no status: it is the READ that tells. */
  lemma MapReturns(s: State, c: ConnId)
    requires Reachable(s) && CanStep(s, c, CWakeRead)
    ensures var t := Next(s, c, CWakeRead);
            var cl := t.conns[c].cl;
            && s.conns[c].cl.sem == [Read]
            && cl.mapped
            && LiveHandle(c, t.sh, cl.mr)
            && |cl.mr.local| == cl.mr.len
            && cl.mr.local == Region(t.sh, cl.mr)
  {
    hide Reachable, SharedInv, Credits, GoodTrace, LastIssued, LastReplied, HandlerHas,
      CanIssue, CanAdapter, CanServer, CanHandler, DoIssue, DoAdapter, DoServer, DoHandler;
    ReachableConn(s, c);
  }

  /** When rpmem_commit unpacks its answer it cannot fail to, the region equals the local
      buffer, and the semaphore it took was posted by the receive, not by the WRITE. */
  lemma CommitReturns(s: State, c: ConnId)
    requires Reachable(s) && c in s.conns && s.conns[c].cl.stage == CWoken(Commit)
    ensures var cl := s.conns[c].cl;
            && UnpackResponse(COMMIT_RSP, cl.rsp).Accepted?
            && LiveHandle(c, s.sh, cl.mr)
            && Region(s.sh, cl.mr) == cl.mr.local
  {
    hide Reachable, SharedInv, Credits, GoodTrace, HandlerMap, Ready, Outcome;
    ReachableConn(s, c);
  }

  /** What msync is asked to write back: the mapping this connection holds, all of it
      mapped, holding exactly the bytes the client committed. */
  lemma MsyncSees(s: State, c: ConnId)
    requires Reachable(s) && c in s.conns
    requires s.conns[c].sv.stage.SBody? && s.conns[c].sv.stage.q.CommitReq?
    ensures var cl, q := s.conns[c].cl, s.conns[c].sv.stage.q;
            && q.addr == cl.mr.raddr && q.len == cl.mr.len
            && LiveHandle(c, s.sh, cl.mr)
            && Mapped(s.sh.mem, q.addr, q.len)
            && ReadBytes(s.sh.mem, q.addr, q.len) == cl.mr.local
  {
    hide Reachable, SharedInv, Credits, Content, Ready;
    ReachableConn(s, c);
    HandlerRuns(c, s.conns[c], s.sh);
    assert s.conns[c].cl.stage == CWait(Commit);
  }

  /** Handle agreement: between commands, a mapped client's key, address and length are
      the registration key, address and length of its unit's resource. */
  lemma HandleAgreement(s: State, c: ConnId)
    requires Reachable(s) && c in s.conns && s.conns[c].cl.mapped
    ensures LiveHandle(c, s.sh, s.conns[c].cl.mr)
    ensures |s.conns[c].cl.mr.local| == s.conns[c].cl.mr.len
  {
    ReachableConn(s, c);
  }

  /** When rpmem_unmap unpacks its answer it cannot fail to, and the answer is 0 exactly
      when the unit has given its resource back; then no registration is left either. It
      leaves no buffer, no length, no key and no address, whatever the answer. */
  lemma UnmapReturns(s: State, c: ConnId)
    requires Reachable(s) && c in s.conns && s.conns[c].cl.stage == CWoken(Unmap)
    ensures var d := UnpackResponse(UNMAP_RSP, s.conns[c].cl.rsp);
            && d.Accepted? && d.rsp.UnmapRsp?
            && (d.rsp.ret == 0 <==> c !in s.sh.pool.now.owner)
            && (d.rsp.ret == 0 ==> NoMr(c, s.sh))
    ensures var cl := Next(s, c, CUnpack).conns[c].cl;
            && cl.stage.CIdle? && !cl.mapped
            && cl.mr.local == [] && cl.mr.len == 0 && cl.mr.rkey == 0 && cl.mr.raddr == 0
  {
    hide Reachable, SharedInv, Shape, Credits, GoodTrace, HandlerMap, Ready;
    ReachableConn(s, c);
  }

  /** The unmap handler never meets a null resource, and the address and length it hands
      to munmap are those of the mapping it has just deregistered. */
  lemma UnmapNamesMapping(s: State, c: ConnId)
    requires Reachable(s) && c in s.conns
    requires s.conns[c].sv.stage.SBody? && s.conns[c].sv.stage.q.UnmapReq?
    ensures var st := s.conns[c].sv.stage;
            && st.res.Some? && Owns(c, s.sh, st.res.value)
            && Live(c, s.sh, s.conns[c].cl.mr.rkey, st.q.addr, st.q.len)
            && Enabled(c, s.conns[c], s.sh, SDereg)
  {
    hide Reachable, SharedInv, Shape, Credits, Content, CanIssue, CanFinish, CanAdapter, CanServer;
    ReachableConn(s, c);
    HandlerRuns(c, s.conns[c], s.sh);
  }

  /** The map handler: when the unit got a resource, the loop variable is that resource. */
  lemma MapUsesItsResource(s: State, c: ConnId)
    requires Reachable(s) && c in s.conns && s.conns[c].sv.stage.SMapDone?
    ensures s.conns[c].sv.stage.res == UnitRes(s.sh, c)
    ensures c in s.sh.pool.now.owner ==> Enabled(c, s.conns[c], s.sh, SMmap(false, 0, []))
  {
    hide Reachable, SharedInv, Local, Mapping, CanIssue, CanFinish, CanAdapter, CanServer;
    ReachableConn(s, c);
    HandlerRuns(c, s.conns[c], s.sh);
  }

  /** Isolation: a step of one connection, whatever keys and addresses it uses, changes
      neither another connection's own state, nor its resource, nor its region. */
  lemma Isolation(s: State, c: ConnId, a: Step, d: ConnId)
    requires Reachable(s) && CanStep(s, c, a) && d in s.conns && d != c
    ensures var t := Next(s, c, a);
            && t.conns[d] == s.conns[d]
            && UnitRes(t.sh, d) == UnitRes(s.sh, d)
            && (s.conns[d].cl.mapped ==> Region(t.sh, s.conns[d].cl.mr) == Region(s.sh, s.conns[d].cl.mr))
  {
    hide SharedInv, ConnInv, Enabled, Apply, Reachable;
    ReachableInv(s);
    NextKeeps(s, c, a);
    var t := Next(s, c, a);
    assert Stable(d, s.sh, t.sh);
    if s.conns[d].cl.mapped {
      HandleAgreement(s, d);
      RegionStable(d, s.sh, t.sh, s.conns[d].cl.mr);
    }
  }

  /** A remote access that the adapter lets through on connection c touches only bytes
      that c itself mapped, whatever key and address the client was told. */
  lemma AccessIsOwn(s: State, c: ConnId, rkey: U32, addr: U64, len: Len)
    requires Reachable(s) && Access(s.sh, c, rkey, addr, len)
    ensures Tagged(s.sh.mem, c, addr, len)
  {
    ReachableInv(s);
    assert Tagged(s.sh.mem, s.sh.mrs[rkey].pd, s.sh.mrs[rkey].addr, s.sh.mrs[rkey].len);
  }

  lemma NoMrStep(s: State, d: ConnId, a: Step, c: ConnId)
    requires Inv(s) && CanStep(s, d, a) && c in s.conns
    requires s.conns[c].cl.stage.CReadWait? && NoMr(c, s.sh)
    ensures var t := Next(s, d, a);
            c in t.conns && t.conns[c].cl.stage.CReadWait? && NoMr(c, t.sh)
  {
    hide SharedInv, ConnInv, Enabled, Apply;
    if d == c {
      ReadWaitStep(c, s.conns[c], s.sh, a);
    } else {
      NextKeeps(s, d, a);
      assert Stable(c, s.sh, Next(s, d, a).sh);
    }
  }

  lemma ReadWaitStep(c: ConnId, cn: Conn, sh: Shared, a: Step)
    requires ConnInv(c, cn, sh) && Enabled(c, cn, sh, a) && cn.cl.stage.CReadWait? && NoMr(c, sh)
    ensures Apply(c, cn, sh, a).0.cl.stage.CReadWait? && NoMr(c, Apply(c, cn, sh, a).1)
  {
    hide Shape, Credits, CmdInv, GoodTrace, DoAdapter, DoServer, DoHandler,
      CanIssue, CanFinish, CanAdapter, CanServer, CanHandler, LiveHandle;
    assert Pending(cn.cl) == [] by { NoMrNotLive(c, cn, sh); }
    if Issues(a) {
      IssueIdle(c, cn, sh, a);
    } else if Finishes(a) {
      FinishNeedsUnit(c, cn, sh, a);
    } else if ClientAdapter(a) {
      AdapterFrame(c, cn, sh, a);
    } else if Handlers(a) {
      HandlerInBody(c, cn, sh, a);
    } else {
      ServerQuiet(c, cn, sh, a);
    }
  }

  lemma NoMrNotLive(c: ConnId, cn: Conn, sh: Shared)
    requires Mapping(c, cn, sh) && cn.cl.stage.CReadWait? && NoMr(c, sh)
    ensures Pending(cn.cl) == []
  {
  }

  lemma IssueIdle(c: ConnId, cn: Conn, sh: Shared, a: Step)
    requires CanIssue(c, cn, sh, a)
    ensures !Waiting(cn.cl.stage)
  {
  }

  lemma FinishNeedsUnit(c: ConnId, cn: Conn, sh: Shared, a: Step)
    requires CanFinish(c, cn, sh, a) && Waiting(cn.cl.stage)
    ensures cn.cl.sem != []
  {
  }

  lemma AdapterFrame(c: ConnId, cn: Conn, sh: Shared, a: Step)
    requires CanAdapter(c, cn, sh, a)
    ensures var (r, sh') := DoAdapter(c, cn, sh, a);
            && r.cl.stage == cn.cl.stage && r.sv.stage == cn.sv.stage && r.trace == cn.trace
            && (r.cl.mr == cn.cl.mr || (cn.cl.sq != [] && cn.cl.sq[0].WrRead?))
            && sh' == sh.(mem := sh'.mem)
  {
    hide Access, WriteBytes;
  }

  lemma ServerQuiet(c: ConnId, cn: Conn, sh: Shared, a: Step)
    requires CanServer(c, cn, sh, a)
    ensures DoServer(c, cn, sh, a).0.cl.stage == cn.cl.stage && DoServer(c, cn, sh, a).1 == sh
  {
    hide PackResponse, HandlerView;
  }

  /** A map whose server side failed leaves the connection without any registration. From
      then on, whatever key and address the answer carried and whatever any connection
      does, rpmem_map never returns its buffer: in every later state of the run the client
      still waits for its READ, with no semaphore unit to come, and is not mapped. */
  lemma {:induction false} FailedMapNeverReturns(run: seq<State>, i: nat, j: nat, c: ConnId)
    requires IsRun(run) && i <= j < |run| && c in run[i].conns
    requires run[i].conns[c].cl.stage.CReadWait? && NoMr(c, run[i].sh)
    ensures c in run[j].conns && run[j].conns[c].cl.stage.CReadWait? && NoMr(c, run[j].sh)
    ensures !run[j].conns[c].cl.mapped && Pending(run[j].conns[c].cl) == []
    ensures forall rkey: U32, addr: U64, len: Len :: !Access(run[j].sh, c, rkey, addr, len)
    decreases j
  {
    hide Enabled, Apply, Next, CanStep, Initial, SharedInv, Shape, Credits, Content;
    if i < j {
      FailedMapNeverReturns(run, i, j - 1, c);
      RunInv(run, j - 1);
      assert OneStep(run[j - 1], run[j - 1 + 1]);
      var d, a :| CanStep(run[j - 1], d, a) && run[j] == Next(run[j - 1], d, a);
      NoMrStep(run[j - 1], d, a, c);
    }
    RunInv(run, j);
    NoMrNotLive(c, run[j].conns[c], run[j].sh);
  }

  // ---- lock step, credits and semaphore

  /** In a failure-free run at most one message is in flight on a connection, and every
      message at the head of its queue finds its receive posted. */
  lemma LockStep(s: State, c: ConnId)
    requires Reachable(s) && c in s.conns && !s.conns[c].faulty
    ensures var cl, sv := s.conns[c].cl, s.conns[c].sv;
            && (forall i :: 0 <= i < |cl.sq| && cl.sq[i].WrSend? ==> i == |cl.sq| - 1 && sv.sq == 0)
            && sv.sq <= 1
            && (EndsSend(cl.sq) ==> sv.recvs == 1)
            && (sv.sq > 0 ==> cl.recvs == 1)
  {
    hide Reachable, SharedInv, Mapping, Content, CmdInv;
    ReachableConn(s, c);
  }

  /** Failures or not, no buffer is packed while the message it holds is undelivered, and
      no receive is taken over a request that a handler still has to read. */
  lemma BuffersAreFree(s: State, c: ConnId)
    requires Reachable(s) && c in s.conns
    ensures CanPack(s.conns[c].cl) ==> !EndsSend(s.conns[c].cl.sq) && Arrivals(s.conns[c].sv.cq) == 0
    ensures s.conns[c].sv.stage.SReply? ==> s.conns[c].sv.sq == 0
    ensures Unposted(s.conns[c].sv.stage) ==> s.conns[c].sv.recvs == 0 && !EndsSend(s.conns[c].cl.sq)
  {
    ReachableConn(s, c);
  }

  /** The semaphore never exceeds one, is zero with nothing to come whenever no command
      waits, and each wait can only be ended by the completion it waits for. */
  lemma SemaphoreAccounting(s: State, c: ConnId)
    requires Reachable(s) && c in s.conns
    ensures var cl := s.conns[c].cl;
            && |Pending(cl)| <= 1
            && (!Waiting(cl.stage) ==> cl.sem == [] && Posts(cl.cq) == [])
            && (cl.stage.CWait? && Pending(cl) != [] ==> Pending(cl) == [Recv])
            && (cl.stage.CReadWait? && Pending(cl) != [] ==> Pending(cl) == [Read])
  {
    ReachableConn(s, c);
  }

  /** Every answer a client ever unpacks is the one the server posted last, for the
      request the client issued last, and the server's handler acted on exactly that
      request: neither side ever sees stale bytes, however often the buffers are reused. */
  lemma NoStaleResponse(s: State, c: ConnId)
    requires Reachable(s) && c in s.conns
    ensures GoodTrace(s.conns[c].trace)
    ensures s.conns[c].cl.stage.CWoken? ==>
              UnpackResponse(RspOpcode(s.conns[c].cl.stage.cmd), s.conns[c].cl.rsp).Accepted?
  {
    ReachableConn(s, c);
  }

  // ---- what no step takes back

  /** The trace only grows, a fault is never forgotten, and only the end of the READ's wait
      makes a client mapped. */
  ghost predicate Onward(cn: Conn, r: Conn, a: Step)
  {
    && cn.trace <= r.trace
    && (cn.faulty ==> r.faulty)
    && (r.cl.mapped ==> cn.cl.mapped || a.CWakeRead?)
  }

  lemma IssueOnward(c: ConnId, cn: Conn, sh: Shared, a: Step)
    requires CanIssue(c, cn, sh, a)
    ensures Onward(cn, DoIssue(c, cn, sh, a).0, a)
  {
    hide PackRequest, ReqOf;
  }

  lemma FinishOnward(c: ConnId, cn: Conn, sh: Shared, a: Step)
    requires CanFinish(c, cn, sh, a)
    ensures Onward(cn, DoFinish(c, cn, sh, a).0, a)
  {
  }

  lemma AdapterOnward(c: ConnId, cn: Conn, sh: Shared, a: Step)
    requires CanAdapter(c, cn, sh, a)
    ensures Onward(cn, DoAdapter(c, cn, sh, a).0, a)
  {
    hide Access, WriteBytes;
  }

  lemma ServerOnward(c: ConnId, cn: Conn, sh: Shared, a: Step)
    requires CanServer(c, cn, sh, a)
    ensures Onward(cn, DoServer(c, cn, sh, a).0, a)
  {
    hide PackResponse, HandlerView;
  }

  lemma HandlerOnward(c: ConnId, cn: Conn, sh: Shared, a: Step)
    requires CanHandler(c, cn, sh, a)
    ensures Onward(cn, DoHandler(c, cn, sh, a).0, a)
  {
    hide MapBytes, UnmapBytes, Fresh, Mapped, CanStore, Store;
  }

  lemma StepOnward(c: ConnId, cn: Conn, sh: Shared, a: Step)
    requires Enabled(c, cn, sh, a)
    ensures Onward(cn, Apply(c, cn, sh, a).0, a)
  {
    hide Onward, DoIssue, DoFinish, DoAdapter, DoServer, DoHandler,
      CanIssue, CanFinish, CanAdapter, CanServer, CanHandler;
    if Issues(a) {
      IssueOnward(c, cn, sh, a);
    } else if Finishes(a) {
      FinishOnward(c, cn, sh, a);
    } else if ClientAdapter(a) {
      AdapterOnward(c, cn, sh, a);
    } else if Handlers(a) {
      HandlerOnward(c, cn, sh, a);
    } else {
      ServerOnward(c, cn, sh, a);
    }
  }

  /** No step of any connection shortens a trace or clears a fault. */
  lemma NextOnward(s: State, c: ConnId, a: Step, d: ConnId)
    requires CanStep(s, c, a) && d in s.conns
    ensures var t := Next(s, c, a);
            d in t.conns && s.conns[d].trace <= t.conns[d].trace && (s.conns[d].faulty ==> t.conns[d].faulty)
  {
    hide Enabled, Apply;
    if d == c { StepOnward(c, s.conns[c], s.sh, a); }
  }

  /** Decode before repost: from dispatch to answer, the handler's request is the one the
      waiting client issued, even after the buffer was zeroed and released. */
  lemma HandlerActsOnItsRequest(s: State, c: ConnId)
    requires Reachable(s) && c in s.conns && Active(s.conns[c].sv.stage)
    ensures s.conns[c].cl.stage.CWait?
    ensures HandlerHas(s.conns[c].sv, ReqOf(s.conns[c].cl.stage.cmd, s.conns[c].cl.mr))
    ensures LastIssued(s.conns[c].trace, ReqOf(s.conns[c].cl.stage.cmd, s.conns[c].cl.mr))
  {
    ReachableConn(s, c);
  }

  /** Posted receives, arrived requests and an unreposted request never exceed one. */
  lemma ReceiveBound(s: State, c: ConnId)
    requires Reachable(s) && c in s.conns
    ensures Credit(s.conns[c].sv) <= 1
  {
    ReachableConn(s, c);
  }

  lemma CreditNeverRises(c: ConnId, cn: Conn, sh: Shared, a: Step)
    requires Enabled(c, cn, sh, a)
    ensures Credit(Apply(c, cn, sh, a).0.sv) <= Credit(cn.sv)
  {
    hide Credit, DoIssue, DoFinish, DoAdapter, DoServer, DoHandler,
      CanIssue, CanFinish, CanAdapter, CanServer, CanHandler;
    if Issues(a) {
      assert DoIssue(c, cn, sh, a).0.sv == cn.sv by { IssueServer(c, cn, sh, a); }
    } else if Finishes(a) {
      assert DoFinish(c, cn, sh, a).0.sv == cn.sv by { FinishServer(c, cn, sh, a); }
    } else if ClientAdapter(a) {
      AdapterCredit(c, cn, sh, a);
    } else if Handlers(a) {
      HandlerCredit(c, cn, sh, a);
    } else {
      ServerCredit(c, cn, sh, a);
    }
  }

  lemma IssueServer(c: ConnId, cn: Conn, sh: Shared, a: Step)
    requires CanIssue(c, cn, sh, a)
    ensures DoIssue(c, cn, sh, a).0.sv == cn.sv && DoIssue(c, cn, sh, a).1 == sh
  {
  }

  lemma FinishServer(c: ConnId, cn: Conn, sh: Shared, a: Step)
    requires CanFinish(c, cn, sh, a)
    ensures DoFinish(c, cn, sh, a).0.sv == cn.sv && DoFinish(c, cn, sh, a).1 == sh
  {
  }

  lemma AdapterCredit(c: ConnId, cn: Conn, sh: Shared, a: Step)
    requires CanAdapter(c, cn, sh, a)
    ensures Credit(DoAdapter(c, cn, sh, a).0.sv) <= Credit(cn.sv)
  {
    ArrivalsAppend(cn.sv.cq, Wc(Recv, true));
  }

  lemma HandlerCredit(c: ConnId, cn: Conn, sh: Shared, a: Step)
    requires CanHandler(c, cn, sh, a)
    ensures Credit(DoHandler(c, cn, sh, a).0.sv) <= Credit(cn.sv)
  {
    hide MapBytes, UnmapBytes, Fresh, Mapped;
  }

  lemma ServerCredit(c: ConnId, cn: Conn, sh: Shared, a: Step)
    requires CanServer(c, cn, sh, a)
    ensures Credit(DoServer(c, cn, sh, a).0.sv) <= Credit(cn.sv)
  {
    ArrivalsAppend(cn.sv.cq, Wc(Send, true));
    if a.SError? { ArrivalsAppend(cn.sv.cq, Wc(a.op, false)); }
  }

  lemma NoCreditNoChange(c: ConnId, cn: Conn, sh: Shared, a: Step)
    requires Credits(cn) && Enabled(c, cn, sh, a) && Credit(cn.sv) == 0
    ensures UnitRes(Apply(c, cn, sh, a).1, c) == UnitRes(sh, c)
    ensures !Apply(c, cn, sh, a).0.sv.stage.SDispatched?
  {
    hide Expecting, Closing, Waiting, Load, DoIssue, DoFinish, DoAdapter, DoServer, DoHandler,
      CanIssue, CanFinish, CanAdapter, CanServer, CanHandler;
    assert !InBody(cn.sv.stage) && !Unposted(cn.sv.stage);
    if Issues(a) {
      IssueServer(c, cn, sh, a);
    } else if Finishes(a) {
      FinishServer(c, cn, sh, a);
    } else if ClientAdapter(a) {
      AdapterFrame(c, cn, sh, a);
    } else if Handlers(a) {
      HandlerInBody(c, cn, sh, a);
    } else {
      ServerServer(c, cn, sh, a);
    }
  }

  lemma HandlerInBody(c: ConnId, cn: Conn, sh: Shared, a: Step)
    requires CanHandler(c, cn, sh, a)
    ensures InBody(cn.sv.stage)
  {
    hide Fresh, Mapped, CanStore, SectionDone;
  }

  lemma ServerServer(c: ConnId, cn: Conn, sh: Shared, a: Step)
    requires CanServer(c, cn, sh, a) && Arrivals(cn.sv.cq) == 0 && !Unposted(cn.sv.stage)
    ensures !DoServer(c, cn, sh, a).0.sv.stage.SDispatched? && DoServer(c, cn, sh, a).1 == sh
  {
    hide PackResponse, HandlerView;
    if a.SHandle? { assert cn.sv.cq[0] != Wc(Recv, true); }
  }

  lemma InvCredits(s: State, c: ConnId)
    requires Inv(s) && c in s.conns
    ensures Credits(s.conns[c])
  {
    hide SharedInv, Mapping, Content, Shape;
  }

  lemma FrozenStep(s: State, d: ConnId, a: Step, c: ConnId)
    requires Inv(s) && CanStep(s, d, a) && c in s.conns && Credit(s.conns[c].sv) == 0
    ensures var t := Next(s, d, a);
            && c in t.conns && Credit(t.conns[c].sv) == 0 && !Unposted(t.conns[c].sv.stage)
            && UnitRes(t.sh, c) == UnitRes(s.sh, c)
  {
    hide SharedInv, ConnInv, Enabled, Apply;
    if d == c {
      CreditNeverRises(c, s.conns[c], s.sh, a);
      assert Credits(s.conns[c]) by { InvCredits(s, c); }
      NoCreditNoChange(c, s.conns[c], s.sh, a);
    } else {
      NextKeeps(s, d, a);
      assert Stable(c, s.sh, Next(s, d, a).sh);
    }
  }

  /** Once a connection has no receive credit left (failed repost, close), no step of any
      connection ever gives it another, so no request of it is dispatched again, and what
      its unit holds stays as it is. */
  lemma {:induction false} Frozen(run: seq<State>, i: nat, j: nat, c: ConnId)
    requires IsRun(run) && i <= j < |run| && c in run[i].conns && Credit(run[i].conns[c].sv) == 0
    ensures c in run[j].conns && Credit(run[j].conns[c].sv) == 0
    ensures UnitRes(run[j].sh, c) == UnitRes(run[i].sh, c)
    ensures !Unposted(run[j].conns[c].sv.stage)
    decreases j - i
  {
    hide Inv, Enabled, Apply, Next, CanStep;
    if i < j {
      Frozen(run, i, j - 1, c);
      RunInv(run, j - 1);
      assert OneStep(run[j - 1], run[j - 1 + 1]);
      var d, a :| CanStep(run[j - 1], d, a) && run[j] == Next(run[j - 1], d, a);
      FrozenStep(run[j - 1], d, a, c);
    }
  }

  // ---- the pool

  /** Pool ownership, at every instant at which no critical section is running; inside
      one, the pool is that section's start with its first stores done. */
  lemma PoolOwnership(s: State)
    requires Reachable(s)
    ensures PoolInv(s.sh.sizes, s.sh.pool)
    ensures s.sh.pool.lock.Unlocked? ==>
              && Consistent(s.sh.sizes, s.sh.pool.now)
              && s.sh.pool.now.free + s.sh.pool.now.inUse == SumSet(s.sh.sizes, s.sh.sizes.Keys)
    ensures Injective(s.sh.pool.now.owner)
  {
    ReachableInv(s);
    OwnersDistinct(s.sh.sizes, s.sh.pool);
    if s.sh.pool.lock.Unlocked? { Conserved(s.sh.sizes, s.sh.pool.now); }
  }

  /** At most one handler is in a critical section, and it is the one that holds the lock. */
  lemma MutualExclusion(s: State, c: ConnId, d: ConnId)
    requires Reachable(s) && c in s.conns && d in s.conns
    requires InSection(s.conns[c].sv) && InSection(s.conns[d].sv)
    ensures c == d && Holds(s.sh.pool, c)
  {
    ReachableConn(s, c);
    ReachableConn(s, d);
  }

  /** The size an open request reports, read without the lock at any instant: the sum of
      the pooled sizes before or after the critical section then running. */
  lemma OpenReports(s: State, c: ConnId)
    requires Reachable(s) && CanStep(s, c, SReadFree)
    ensures PoolInv(s.sh.sizes, s.sh.pool)
    ensures var size := Next(s, c, SReadFree).conns[c].sv.stage.size;
            NearSum(s.sh.sizes, s.sh.pool, size) && 0 <= size <= SumSet(s.sh.sizes, s.sh.sizes.Keys)
  {
    hide PoolInv, NearSum, ConnInv;
    ReachableInv(s);
    UnlockedRead(s.sh.sizes, s.sh.pool);
  }
}
