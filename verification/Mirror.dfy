/** The simple object that rpmem promises its client, and the proof that the whole
    machinery of messages, RDMA and server mappings refines it on every connection. */
module Mirror {
  import opened Wire
  import opened PoolModel
  import opened System
  import opened Invariant
  import opened SharedSteps
  import opened Safety

  /** A local buffer and the remote region it mirrors, or nothing. */
  datatype Mirror = Gone | Mirrored(local: seq<Byte>, region: seq<Byte>)

  datatype MirrorOp = MapOp | CommitOp | WriteOp(data: seq<Byte>) | ForgetOp | Stutter

  /** map copies region to local; commit copies local to region; the application writes
      the local buffer; unmap and close forget. */
  predicate Does(op: MirrorOp, m: Mirror, m': Mirror)
  {
    match op
    case MapOp => m.Gone? && m'.Mirrored? && m'.local == m'.region
    case CommitOp => m.Mirrored? && m' == Mirrored(m.local, m.local)
    case WriteOp(data) => m.Mirrored? && |data| == |m.local| && m' == Mirrored(data, m.region)
    case ForgetOp => m'.Gone?
    case Stutter => m' == m
  }

  /** What the client of connection `cn` may rely on. */
  function View(cn: Conn, sh: Shared): (m: Mirror)
  {
    if cn.cl.mapped then Mirrored(cn.cl.mr.local, Region(sh, cn.cl.mr)) else Gone
  }

  /** Which operation of the simple object a step is: map happens when the READ's wait
      ends, commit when the adapter executes the WRITE, forgetting when unmap or close is
      called; every other step of any thread or adapter is invisible. */
  function OpOfStep(cn: Conn, sh: Shared, c: ConnId, a: Step): (op: MirrorOp)
  {
    match a
    case CWakeRead => MapOp
    case AppWrite(data) => WriteOp(data)
    case Begin(cmd, _) => if cmd.Unmap? || cmd.Close? then ForgetOp else Stutter
    case CExec =>
      if cn.cl.mapped && cn.cl.sq != [] && cn.cl.sq[0].WrWrite? && CanExec(cn) && !DoCExec(c, cn, sh).0.broken
      then CommitOp else Stutter
    case _ => Stutter
  }

  lemma WriteIsCommit(c: ConnId, cn: Conn, sh: Shared)
    requires ConnInv(c, cn, sh) && CanExec(cn) && cn.cl.mapped && cn.cl.sq[0].WrWrite?
    requires !DoCExec(c, cn, sh).0.broken
    ensures var (r, sh') := DoCExec(c, cn, sh);
            View(r, sh') == Mirrored(cn.cl.mr.local, cn.cl.mr.local)
  {
    var (r, sh') := DoCExec(c, cn, sh);
    WriteMapped(c, cn, sh, sh');
  }

  /** While mapped, no step of the server changes the region, and no step but those named
      in OpOfStep changes what the client sees. */
  lemma OthersInvisible(c: ConnId, cn: Conn, sh: Shared, a: Step)
    requires ConnInv(c, cn, sh) && Enabled(c, cn, sh, a)
    requires !a.CWakeRead? && !a.AppWrite? && !a.CExec? && !a.Begin?
    requires cn.cl.mapped
    ensures var (r, sh') := Apply(c, cn, sh, a); View(r, sh') == View(cn, sh)
  {
    hide Shape, Content, Credits, Mapping, CmdInv, View, DoIssue, DoFinish, DoAdapter, DoServer, DoHandler,
      CanIssue, CanFinish, CanAdapter, CanServer, CanHandler;
    if Issues(a) {
      IssueInvisible(c, cn, sh, a);
    } else if Finishes(a) {
      FinishInvisible(c, cn, sh, a);
    } else if ClientAdapter(a) {
      AdapterInvisible(c, cn, sh, a);
    } else if Handlers(a) {
      HandlerInvisible(c, cn, sh, a);
    } else {
      ServerInvisible(c, cn, sh, a);
    }
  }

  lemma IssueInvisible(c: ConnId, cn: Conn, sh: Shared, a: Step)
    requires CmdInv(cn.cl) && cn.cl.mapped && CanIssue(c, cn, sh, a) && !a.Begin?
    ensures var (r, sh') := DoIssue(c, cn, sh, a); View(r, sh') == View(cn, sh)
  {
    hide Region;
  }

  lemma FinishInvisible(c: ConnId, cn: Conn, sh: Shared, a: Step)
    requires CmdInv(cn.cl) && cn.cl.mapped && CanFinish(c, cn, sh, a) && !a.CWakeRead? && !a.AppWrite?
    ensures var (r, sh') := DoFinish(c, cn, sh, a); View(r, sh') == View(cn, sh)
  {
    hide Region;
  }

  lemma AdapterInvisible(c: ConnId, cn: Conn, sh: Shared, a: Step)
    requires CanAdapter(c, cn, sh, a) && !a.CExec?
    ensures var (r, sh') := DoAdapter(c, cn, sh, a); View(r, sh') == View(cn, sh)
  {
    hide Region;
  }

  lemma ServerInvisible(c: ConnId, cn: Conn, sh: Shared, a: Step)
    requires CanServer(c, cn, sh, a)
    ensures var (r, sh') := DoServer(c, cn, sh, a); View(r, sh') == View(cn, sh)
  {
    hide Region;
  }

  /** A handler that runs while its client is mapped is a commit handler. */
  lemma HandlerInvisible(c: ConnId, cn: Conn, sh: Shared, a: Step)
    requires Local(cn) && Mapping(c, cn, sh) && cn.cl.mapped && CanHandler(c, cn, sh, a)
    ensures var (r, sh') := DoHandler(c, cn, sh, a); View(r, sh') == View(cn, sh)
  {
    hide Local, Mapping, View, HandlerMap;
    assert Active(cn.sv.stage) by { HandlerInBody(c, cn, sh, a); }
    HandlerRuns(c, cn, sh);
    MsyncInvisible(c, cn, sh, a);
  }

  lemma MsyncInvisible(c: ConnId, cn: Conn, sh: Shared, a: Step)
    requires cn.cl.stage.CWait? && Handling(c, cn, sh, cn.cl.stage.cmd) && cn.cl.mapped && CanHandler(c, cn, sh, a)
    ensures var (r, sh') := DoHandler(c, cn, sh, a); View(r, sh') == View(cn, sh)
  {
    hide HandlerMap, Region;
    assert a.SMsync?;
  }

  lemma OwnStepRefines(c: ConnId, cn: Conn, sh: Shared, a: Step)
    requires ConnInv(c, cn, sh) && Enabled(c, cn, sh, a)
    ensures var (r, sh') := Apply(c, cn, sh, a);
            Does(OpOfStep(cn, sh, c, a), View(cn, sh), View(r, sh'))
  {
    hide Shape, Content, Credits, Mapping, DoIssue, DoFinish, DoServer, DoHandler,
      CanIssue, CanFinish, CanServer, CanHandler;
    if a.CExec? {
      if cn.cl.mapped && cn.cl.sq[0].WrWrite? && !DoCExec(c, cn, sh).0.broken {
        WriteIsCommit(c, cn, sh);
      } else if cn.cl.mapped && cn.cl.sq[0].WrRead? {
        ReadOnlyUnmapped(cn);
      }
    } else if a.CWakeRead? || a.AppWrite? || a.Begin? {
      CallRefines(c, cn, sh, a);
    } else if cn.cl.mapped {
      OthersInvisible(c, cn, sh, a);
    } else {
      StepOnward(c, cn, sh, a);
    }
  }

  lemma ReadOnlyUnmapped(cn: Conn)
    requires Local(cn) && cn.cl.sq != [] && cn.cl.sq[0].WrRead?
    ensures !cn.cl.mapped
  {
    assert |cn.cl.sq| == 1;
  }

  lemma CallRefines(c: ConnId, cn: Conn, sh: Shared, a: Step)
    requires ConnInv(c, cn, sh) && Enabled(c, cn, sh, a) && (a.CWakeRead? || a.AppWrite? || a.Begin?)
    ensures var (r, sh') := Apply(c, cn, sh, a);
            Does(OpOfStep(cn, sh, c, a), View(cn, sh), View(r, sh'))
  {
    hide Shape, Credits, CanAdapter, CanServer, CanHandler, DoAdapter, DoServer, DoHandler;
  }

  /** Refinement: every step of the system is, on the connection that takes it, one
      operation of the simple object, and is invisible on every other connection. */
  lemma Refines(s: State, c: ConnId, a: Step, d: ConnId)
    requires Reachable(s) && CanStep(s, c, a) && d in s.conns
    ensures var t := Next(s, c, a);
            Does(if d == c then OpOfStep(s.conns[c], s.sh, c, a) else Stutter,
                 View(s.conns[d], s.sh), View(t.conns[d], t.sh))
  {
    hide ConnInv, SharedInv, Enabled, Apply, OpOfStep, Reachable;
    if d == c {
      ReachableConn(s, c);
      OwnStepRefines(c, s.conns[c], s.sh, a);
    } else {
      Isolation(s, c, a, d);
    }
  }

  /** A run of the simple object: each state follows from the one before by one of its
      operations. */
  ghost predicate MirrorRun(ms: seq<Mirror>)
  {
    ms != [] && ms[0].Gone? && forall i :: 0 <= i < |ms| - 1 ==> MirrorNext(ms[i], ms[i + 1])
  }

  ghost predicate MirrorNext(m: Mirror, m': Mirror) { exists op :: Does(op, m, m') }

  ghost function Views(run: seq<State>, d: ConnId): (ms: seq<Mirror>)
    requires forall i :: 0 <= i < |run| ==> d in run[i].conns
  {
    seq(|run|, i requires 0 <= i < |run| => View(run[i].conns[d], run[i].sh))
  }

  lemma {:induction false} ConnsStay(run: seq<State>, i: nat, d: ConnId)
    requires IsRun(run) && i < |run| && d in run[0].conns
    ensures d in run[i].conns
  {
    if i > 0 {
      ConnsStay(run, i - 1, d);
      assert OneStep(run[i - 1], run[i - 1 + 1]);
    }
  }

  /** Whole runs: seen through any one connection, every run of the system is a run of
      the simple object. */
  lemma RunRefines(run: seq<State>, d: ConnId)
    requires IsRun(run) && d in run[0].conns
    ensures forall i :: 0 <= i < |run| ==> d in run[i].conns
    ensures MirrorRun(Views(run, d))
  {
    hide Next, CanStep, Does, View, Initial, Reachable;
    forall i | 0 <= i < |run| ensures d in run[i].conns { ConnsStay(run, i, d); }
    var ms := Views(run, d);
    FirstView(run, d);
    forall i | 0 <= i < |ms| - 1 ensures MirrorNext(ms[i], ms[i + 1]) {
      StepView(run, i, d);
    }
  }

  lemma FirstView(run: seq<State>, d: ConnId)
    requires IsRun(run) && d in run[0].conns
    ensures View(run[0].conns[d], run[0].sh).Gone?
  {
    var req, rsp :| run[0].conns[d] == NewConn(req, rsp);
  }

  lemma StepView(run: seq<State>, i: nat, d: ConnId)
    requires IsRun(run) && i + 1 < |run| && d in run[i].conns && d in run[i + 1].conns
    ensures MirrorNext(View(run[i].conns[d], run[i].sh), View(run[i + 1].conns[d], run[i + 1].sh))
  {
    hide Initial, View, Does, OpOfStep, Next, CanStep, Reachable;
    PrefixReachable(run, i);
    assert OneStep(run[i], run[i + 1]);
    var c, a :| CanStep(run[i], c, a) && run[i + 1] == Next(run[i], c, a);
    Refines(run[i], c, a, d);
  }
}
