/** What calls leave behind on the client: posted buffers are zero, a failed call cleans up
    after itself, and a closed connection does nothing more. */
module Aftermath {
  import opened Wire
  import opened PoolModel
  import opened System
  import opened Invariant
  import opened SharedSteps
  import opened Induction
  import opened Safety
  import opened Termination
  import opened Return

  // ---- posted buffers

  /** Both sides zero a buffer before they post it for a receive, whether or not the post
      succeeds: all 48 bytes, so that no stale opcode is ever found in it. */
  lemma PostedBuffersAreZero(s: State, c: ConnId, ok: bool, rkey: U32, addr: U64)
    requires c in s.conns
    ensures CanStep(s, c, CPostRecv(ok)) ==>
              forall i :: 0 <= i < CMD_SIZE ==> Next(s, c, CPostRecv(ok)).conns[c].cl.rsp[i] == 0
    ensures CanStep(s, c, SRepost(ok, rkey, addr)) ==>
              forall i :: 0 <= i < CMD_SIZE ==> Next(s, c, SRepost(ok, rkey, addr)).conns[c].sv.req[i] == 0
  {
    hide ReqOf, RecvRoom;
  }

  // ---- calls that fail

  /** A step in which a post of the client fails. */
  predicate Fails(a: Step)
  {
    a == CPostRecv(false) || a == CPostWrite(false) || a == CPostSend(false) || a == CPostRead(false)
  }

  /** What a failed call has cleaned up. */
  predicate CleanedUp(cmd: Cmd, cl: Client, r: Client)
  {
    match cmd
    case Open | Close => r.stage.CClosed?
    case Map(_) => r.stage.CIdle? && !r.mapped && r.mr.local == [] && r.mr.len == 0
    case Unmap =>
      r.stage.CIdle? && !r.mapped && r.mr.local == [] && r.mr.len == 0 && r.mr.rkey == 0 && r.mr.raddr == 0
    case Commit => r.stage.CIdle? && r.mapped && r.mr == cl.mr
  }

  lemma FailCleansUp(c: ConnId, cn: Conn, sh: Shared, a: Step)
    requires CmdInv(cn.cl) && Enabled(c, cn, sh, a) && Fails(a)
    ensures var (r, sh') := Apply(c, cn, sh, a);
            && CleanedUp(CmdOf(cn.cl), cn.cl, r.cl) && (r.cl.stage.CClosed? ==> r.broken)
            && r.sv == cn.sv && sh' == sh
            && (a.CPostRead? ==> r.cl.mr.rkey == 0 && r.cl.mr.raddr == 0)
  {
    hide CanAdapter, CanServer, CanHandler, DoAdapter, DoServer, DoHandler, PackRequest, ReqOf, RecvRoom, SendRoom;
  }

  /** A call that cannot post returns at once and undoes what it set up: open and close end the connection, map and unmap leave no
      buffer and no length, commit leaves the mapping as it was. The server is untouched. */
  lemma FailedCall(s: State, c: ConnId, a: Step)
    requires Reachable(s) && CanStep(s, c, a) && Fails(a)
    ensures var cn, r := s.conns[c], Next(s, c, a).conns[c];
            && CleanedUp(CmdOf(cn.cl), cn.cl, r.cl) && (r.cl.stage.CClosed? ==> r.broken)
            && r.sv == cn.sv && Next(s, c, a).sh == s.sh
            && (a.CPostRead? ==> r.cl.mr.rkey == 0 && r.cl.mr.raddr == 0)
  {
    hide Reachable, SharedInv, Shape, Content, Credits, Mapping, CmdOf, CleanedUp, Enabled, Apply, Fails;
    ReachableConn(s, c);
    FailCleansUp(c, s.conns[c], s.sh, a);
  }

  /** A map that cannot allocate its buffer returns without one. */
  lemma MapUnallocated(s: State, c: ConnId, len: Len)
    requires CanStep(s, c, Begin(Map(len), false))
    ensures var cl := Next(s, c, Begin(Map(len), false)).conns[c].cl;
            cl.stage.CIdle? && !cl.mapped && cl.mr.local == [] && cl.mr.len == 0
  {
  }

  /** A map begins on a zeroed buffer of its length. */
  lemma MapBegins(s: State, c: ConnId, len: Len)
    requires CanStep(s, c, Begin(Map(len), true))
    ensures var cl := Next(s, c, Begin(Map(len), true)).conns[c].cl;
            cl.stage == CBegun(Map(len)) && cl.mr.len == len && |cl.mr.local| == len
            && forall i :: 0 <= i < len ==> cl.mr.local[i] == 0
  {
  }

  /** What a handler answers when it cannot repost its receive: -1, except that map sends
      what is in its variables and open still sends the size. */
  lemma FailedRepost(s: State, c: ConnId, rkey: U32, addr: U64)
    requires c in s.conns
    ensures CanStep(s, c, SRepost(false, rkey, addr)) ==>
              var st, t := s.conns[c].sv.stage, Next(s, c, SRepost(false, rkey, addr)).conns[c];
              && t.faulty && t.sv.recvs == s.conns[c].sv.recvs && t.sv.stage.SReply?
              && t.sv.stage.rsp == (if st.SOpenRead? then OpenRsp(st.size)
                                    else if st.q.MapReq? then MapRsp(rkey, addr)
                                    else if st.q.UnmapReq? then UnmapRsp(-1)
                                    else CommitRsp(-1))
  {
    hide CanIssue, CanFinish, CanAdapter, CanHandler, DoIssue, DoFinish, DoAdapter, DoHandler;
  }

  /** What it answers when munmap or msync fails, or when a map found no resource. */
  lemma FailedHandler(s: State, c: ConnId, rkey: U32, addr: U64)
    requires c in s.conns
    ensures CanStep(s, c, SMunmap(false)) ==>
              var t := Next(s, c, SMunmap(false));
              t.sh == s.sh && t.conns[c].sv.stage.SReply? && t.conns[c].sv.stage.rsp == UnmapRsp(-1)
    ensures CanStep(s, c, SMsync(false)) ==>
              var t := Next(s, c, SMsync(false));
              t.sh == s.sh && t.conns[c].sv.stage.SReply? && t.conns[c].sv.stage.rsp == CommitRsp(-1)
    ensures CanStep(s, c, SCheck(rkey, addr)) ==>
              var t := Next(s, c, SCheck(rkey, addr));
              t.sh == s.sh && t.conns[c].sv.stage.SReply? && t.conns[c].sv.stage.rsp == MapRsp(rkey, addr)
  {
    hide CanIssue, CanFinish, CanAdapter, CanServer, DoIssue, DoFinish, DoAdapter, DoServer;
  }

  // ---- after close

  predicate ClosedBroken(cn: Conn) { cn.cl.stage.CClosed? ==> cn.broken }

  lemma IssueClosed(c: ConnId, cn: Conn, sh: Shared, a: Step)
    requires ClosedBroken(cn) && CanIssue(c, cn, sh, a)
    ensures ClosedBroken(DoIssue(c, cn, sh, a).0)
  {
    hide PackRequest, ReqOf, RecvRoom, SendRoom;
  }

  lemma FinishClosed(c: ConnId, cn: Conn, sh: Shared, a: Step)
    requires ClosedBroken(cn) && CanFinish(c, cn, sh, a)
    ensures ClosedBroken(DoFinish(c, cn, sh, a).0)
  {
    hide UnpackResponse, SendRoom;
  }

  lemma AdapterClosed(c: ConnId, cn: Conn, sh: Shared, a: Step)
    requires ClosedBroken(cn) && CanAdapter(c, cn, sh, a)
    ensures ClosedBroken(DoAdapter(c, cn, sh, a).0)
  {
    hide Access, WriteBytes;
  }

  lemma ServerClosed(c: ConnId, cn: Conn, sh: Shared, a: Step)
    requires ClosedBroken(cn) && CanServer(c, cn, sh, a)
    ensures ClosedBroken(DoServer(c, cn, sh, a).0)
  {
    hide PackResponse, HandlerView;
  }

  lemma StepClosed(c: ConnId, cn: Conn, sh: Shared, a: Step)
    requires ClosedBroken(cn) && Enabled(c, cn, sh, a)
    ensures ClosedBroken(Apply(c, cn, sh, a).0)
    ensures cn.cl.stage.CClosed? ==> Apply(c, cn, sh, a).0.cl.stage.CClosed?
  {
    hide DoIssue, DoFinish, DoAdapter, DoServer, DoHandler, CanIssue, CanFinish, CanAdapter, CanServer, CanHandler;
    if Issues(a) {
      IssueClosed(c, cn, sh, a);
      ClosedIsIdle(c, cn, sh, a);
    } else if Finishes(a) {
      FinishClosed(c, cn, sh, a);
      ClosedIsIdle(c, cn, sh, a);
    } else if ClientAdapter(a) {
      AdapterClosed(c, cn, sh, a);
      AdapterFrame(c, cn, sh, a);
    } else if Handlers(a) {
      HandlerStage(c, cn, sh, a);
    } else {
      ServerClosed(c, cn, sh, a);
      ServerQuiet(c, cn, sh, a);
    }
  }

  lemma ClosedIsIdle(c: ConnId, cn: Conn, sh: Shared, a: Step)
    ensures CanIssue(c, cn, sh, a) || CanFinish(c, cn, sh, a) ==> !cn.cl.stage.CClosed?
  {
  }

  lemma ClosedNext(s: State, d: ConnId, a: Step, c: ConnId)
    requires CanStep(s, d, a) && c in s.conns && ClosedBroken(s.conns[c])
    ensures var t := Next(s, d, a); c in t.conns && ClosedBroken(t.conns[c])
    ensures s.conns[c].cl.stage.CClosed? ==> Next(s, d, a).conns[c].cl.stage.CClosed?
  {
    hide Enabled, Apply;
    if d == c { StepClosed(c, s.conns[c], s.sh, a); }
  }

  lemma {:induction false} RunClosed(run: seq<State>, i: nat, c: ConnId)
    requires IsRun(run) && i < |run| && c in run[i].conns
    ensures ClosedBroken(run[i].conns[c])
  {
    hide Next, CanStep;
    if i == 0 {
      var req, rsp :| run[0].conns[c] == NewConn(req, rsp);
    } else {
      assert OneStep(run[i - 1], run[i - 1 + 1]);
      var d, a :| CanStep(run[i - 1], d, a) && run[i] == Next(run[i - 1], d, a);
      NextConns(run[i - 1], d, a);
      RunClosed(run, i - 1, c);
      ClosedNext(run[i - 1], d, a, c);
    }
  }

  lemma BrokenMovesNothing(c: ConnId, cn: Conn, sh: Shared)
    requires cn.broken && cn.cl.stage.CClosed?
    ensures !Enabled(c, cn, sh, CExec) && !Enabled(c, cn, sh, CComplete) && !Enabled(c, cn, sh, SDeliver)
    ensures forall a :: Issues(a) || Finishes(a) ==> !Enabled(c, cn, sh, a)
  {
    hide CanAdapter, CanServer, CanHandler;
    forall a | Issues(a) || Finishes(a) ensures !Enabled(c, cn, sh, a) { ClosedIsIdle(c, cn, sh, a); }
    BrokenAdapters(c, cn, sh);
  }

  lemma BrokenAdapters(c: ConnId, cn: Conn, sh: Shared)
    requires cn.broken
    ensures !Enabled(c, cn, sh, CExec) && !Enabled(c, cn, sh, CComplete) && !Enabled(c, cn, sh, SDeliver)
  {
  }

  /** After a close has returned, or an open or close has failed, the connection is closed
      for the rest of the run: no request of it is executed, no answer is delivered to it,
      and its client makes no call. */
  lemma {:induction false} ClosedIsOver(run: seq<State>, i: nat, j: nat, c: ConnId)
    requires IsRun(run) && i <= j < |run| && c in run[i].conns && run[i].conns[c].cl.stage.CClosed?
    ensures c in run[j].conns && run[j].conns[c].cl.stage.CClosed? && run[j].conns[c].broken
    ensures !CanStep(run[j], c, CExec) && !CanStep(run[j], c, CComplete) && !CanStep(run[j], c, SDeliver)
    ensures forall a :: Issues(a) || Finishes(a) ==> !CanStep(run[j], c, a)
    decreases j
  {
    hide Enabled, Apply, Next, Initial, Issues, Finishes;
    if i < j {
      ClosedIsOver(run, i, j - 1, c);
      assert OneStep(run[j - 1], run[j - 1 + 1]);
      var d, a :| CanStep(run[j - 1], d, a) && run[j] == Next(run[j - 1], d, a);
      ClosedNext(run[j - 1], d, a, c);
    }
    RunClosed(run, j, c);
    BrokenMovesNothing(c, run[j].conns[c], run[j].sh);
  }
}
