/** Every step of a connection keeps the part of its invariant that speaks of the
    connection alone: one lemma per step. */
module LocalSteps {
  import opened Wire
  import opened PoolModel
  import opened System
  import opened Invariant

  /** Nothing is under way. */
  predicate Resting(cn: Conn)
  {
    && Load(cn) == 0
    && !EndsSend(cn.cl.sq) && !EndsRead(cn.cl.sq)
    && !Active(cn.sv.stage) && cn.sv.sq == 0 && Arrivals(cn.sv.cq) == 0
    && Pending(cn.cl) == [] && Reads(cn.cl.unacked) == 0
  }

  lemma ShapeRests(cn: Conn)
    requires Shape(cn) && !Waiting(cn.cl.stage)
    ensures Resting(cn)
  {
  }

  predicate SameQueues(cl: Client, r: Client)
  {
    r.sq == cl.sq && r.unacked == cl.unacked && r.cq == cl.cq && r.sem == cl.sem
  }

  lemma RestFrame(cn: Conn, r: Conn)
    requires Resting(cn) && r.sv == cn.sv && SameQueues(cn.cl, r.cl)
    ensures Resting(r)
  {
  }

  /** While nothing is under way, only the client thread's own stage has content. */
  lemma RestContent(cn: Conn)
    requires Resting(cn) && GoodTrace(cn.trace) && !cn.cl.stage.CWoken?
    requires cn.cl.stage.CRecvd? ==> LastIssued(cn.trace, ReqOf(cn.cl.stage.cmd, cn.cl.mr))
    requires cn.cl.stage.CWrote? ==> LastIssued(cn.trace, ReqOf(Commit, cn.cl.mr))
    requires cn.cl.stage.CPacked? ==>
               && LastIssued(cn.trace, ReqOf(cn.cl.stage.cmd, cn.cl.mr))
               && DecodeRequest(cn.cl.req) == ReqOf(cn.cl.stage.cmd, cn.cl.mr)
    ensures Content(cn)
  {
    hide GoodTrace, LastIssued, LastReplied, HandlerHas, DecodeRequest, Load;
  }

  lemma BeginKeeps(cn: Conn, cmd: Cmd, alloc: bool)
    requires Local(cn) && CanBegin(cn.cl, cmd)
    ensures Local(DoBegin(cn, cmd, alloc))
  {
    hide Shape, Content, Credits, CmdInv, Resting, DoBegin;
    ShapeRests(cn);
    BeginCmd(cn, cmd, alloc);
    RestFrame(cn, DoBegin(cn, cmd, alloc));
    BeginShape(cn, cmd, alloc);
    BeginCredits(cn, DoBegin(cn, cmd, alloc));
    HasTrace(cn);
    RestContent(DoBegin(cn, cmd, alloc));
  }

  lemma HasTrace(cn: Conn)
    requires Content(cn)
    ensures GoodTrace(cn.trace)
  {
    hide GoodTrace, LastIssued, LastReplied, HandlerHas, DecodeRequest;
  }

  /** What is queued while nothing is under way is WRITEs, of a client that may have some. */
  lemma RestQueue(cn: Conn)
    requires Shape(cn) && !EndsSend(cn.cl.sq) && !EndsRead(cn.cl.sq) && !MayWrite(cn.cl)
    ensures cn.cl.sq == []
  {
    hide Load, Past;
  }

  /** A change of stage, flags or handle keeps the shape of a connection at rest if it
      keeps the handle of what is queued. */
  lemma RestShape(cn: Conn, r: Conn)
    requires Shape(cn) && Resting(cn) && Resting(r) && SameQueues(cn.cl, r.cl) && !Waiting(r.cl.stage)
    requires r.cl.stage.CWoken? || r.cl.stage.CMapDec? ==> cn.cl.sq == []
    requires cn.faulty ==> r.faulty
    requires cn.cl.sq == [] || (MayWrite(r.cl) && (r.cl.gaveUp || (r.cl.mr == cn.cl.mr && !cn.cl.gaveUp)))
    requires cn.cl.sq == [] || r.faulty
    ensures Shape(r)
  {
    hide Load;
  }

  lemma BeginShape(cn: Conn, cmd: Cmd, alloc: bool)
    requires Shape(cn) && CmdInv(cn.cl) && CanBegin(cn.cl, cmd)
    requires Resting(cn) && Resting(DoBegin(cn, cmd, alloc))
    ensures Shape(DoBegin(cn, cmd, alloc))
  {
    hide Shape, Resting, Load;
    var r := DoBegin(cn, cmd, alloc);
    if cn.cl.sq != [] { BeginQueue(cn); }
    RestShape(cn, r);
  }

  lemma BeginQueue(cn: Conn)
    requires Shape(cn) && Resting(cn) && cn.cl.stage.CIdle? && cn.cl.sq != []
    ensures (cn.cl.mapped || cn.cl.gaveUp) && cn.faulty
  {
    hide Load, Past;
    assert cn.cl.sq[0].WrWrite?;
  }

  lemma BeginCmd(cn: Conn, cmd: Cmd, alloc: bool)
    requires CmdInv(cn.cl) && CanBegin(cn.cl, cmd)
    ensures var r := DoBegin(cn, cmd, alloc);
            && CmdInv(r.cl) && (r.cl.stage.CBegun? || r.cl.stage.CIdle?)
            && r == cn.(cl := cn.cl.(stage := r.cl.stage, mr := r.cl.mr, mapped := r.cl.mapped))
  {
  }

  lemma BeginCredits(cn: Conn, r: Conn)
    requires Credits(cn) && Resting(cn) && Resting(r) && cn.cl.stage.CIdle? && (r.cl.stage.CBegun? || r.cl.stage.CIdle?)
    requires r == cn.(cl := cn.cl.(stage := r.cl.stage, mr := r.cl.mr, mapped := r.cl.mapped))
    ensures Credits(r)
  {
    hide Load;
  }

  lemma FailShape(cn: Conn, cmd: Cmd)
    requires Shape(cn) && Preparing(cn.cl.stage, cmd) && CmdInv(cn.cl) && Resting(cn) && Resting(FailCommand(cn, cmd))
    ensures Shape(FailCommand(cn, cmd))
  {
    hide Shape, Resting, Load;
    if cn.cl.sq != [] && !MayWrite(cn.cl) { FailQueue(cn); }
    RestShape(cn, FailCommand(cn, cmd));
  }

  lemma FailQueue(cn: Conn)
    requires Shape(cn) && Resting(cn) && !MayWrite(cn.cl)
    ensures cn.cl.sq == []
  {
    hide Shape, Load;
    RestQueue(cn);
  }

  lemma FailCredits(cn: Conn, cmd: Cmd)
    requires Credits(cn) && CmdInv(cn.cl) && Preparing(cn.cl.stage, cmd)
    ensures Credits(FailCommand(cn, cmd)) && CmdInv(FailCommand(cn, cmd).cl)
  {
    hide Load;
  }

  /** The stages in which a command's posts may fail. */
  predicate Preparing(st: CStage, cmd: Cmd) { st == CBegun(cmd) || st == CRecvd(cmd) || st == CPacked(cmd) }

  lemma FailKeeps(cn: Conn, cmd: Cmd)
    requires Local(cn) && Preparing(cn.cl.stage, cmd)
    ensures Local(FailCommand(cn, cmd))
  {
    hide Shape, Content, Credits, CmdInv, Resting;
    ShapeRests(cn);
    RestFrame(cn, FailCommand(cn, cmd));
    FailShape(cn, cmd);
    FailCredits(cn, cmd);
    HasTrace(cn);
    RestContent(FailCommand(cn, cmd));
  }

  lemma TraceGrows(tr: seq<Event>, e: Event)
    requires GoodTrace(tr)
    requires e.Got? ==> |tr| >= 2 && tr[|tr| - 1].Replied? && tr[|tr| - 1].rsp == e.rsp
                        && tr[|tr| - 2] == Issued(tr[|tr| - 1].q) && Answers(tr[|tr| - 1].q, e.rsp)
    ensures GoodTrace(tr + [e])
  {
    var t := tr + [e];
    forall i | 0 <= i < |t| && t[i].Got?
      ensures i >= 2 && t[i - 1].Replied? && t[i - 1].rsp == t[i].rsp
              && t[i - 2] == Issued(t[i - 1].q) && Answers(t[i - 1].q, t[i].rsp)
    {
      if i < |tr| { assert tr[i].Got?; }
    }
  }

  lemma ZeroKeeps(cn: Conn)
    requires Local(cn) && cn.cl.stage.CBegun?
    ensures Local(cn.(cl := cn.cl.(rsp := Zeroed())))
  {
    hide GoodTrace, HandlerHas;
  }

  lemma IssueRest(cn: Conn)
    requires Shape(cn) && Credits(cn) && CmdInv(cn.cl) && cn.cl.stage.CBegun?
    ensures var r := DoCPostRecv(cn, true);
            Resting(r) && Shape(r) && Credits(r) && CmdInv(r.cl)
  {
    assert Load(cn) == 0;
  }

  lemma IssueKeeps(cn: Conn)
    requires Local(cn) && cn.cl.stage.CBegun?
    ensures Local(DoCPostRecv(cn, true))
  {
    hide GoodTrace, Shape, Credits, CmdInv, Resting, HandlerHas, DecodeRequest;
    TraceGrows(cn.trace, Issued(ReqOf(cn.cl.stage.cmd, cn.cl.mr)));
    IssueRest(cn);
    RestContent(DoCPostRecv(cn, true));
  }

  lemma PostRecvKeeps(cn: Conn, ok: bool)
    requires Local(cn) && cn.cl.stage.CBegun?
    ensures Local(DoCPostRecv(cn, ok))
  {
    hide Local;
    if ok {
      IssueKeeps(cn);
    } else {
      ZeroKeeps(cn);
      FailKeeps(cn.(cl := cn.cl.(rsp := Zeroed())), cn.cl.stage.cmd);
    }
  }

  lemma PostWriteQueue(cn: Conn)
    requires Shape(cn) && Resting(cn) && !cn.cl.gaveUp
    ensures var sq := cn.cl.sq + [WrWrite(cn.cl.mr.rkey, cn.cl.mr.raddr, cn.cl.mr.len)];
            WritesFirst(sq) && WritesOf(sq, cn.cl.mr) && !EndsSend(sq) && !EndsRead(sq) && (sq[0].WrWrite?)
  {
    hide Load, Past;
  }

  lemma PostWriteRests(cn: Conn)
    requires Resting(cn)
    requires !EndsSend(DoCPostWrite(cn, true).cl.sq) && !EndsRead(DoCPostWrite(cn, true).cl.sq)
    ensures Resting(DoCPostWrite(cn, true))
  {
    hide EndsSend, EndsRead;
  }

  lemma PostWriteShape(cn: Conn)
    requires Shape(cn) && CmdInv(cn.cl) && cn.cl.stage == CRecvd(Commit) && Resting(cn)
    ensures var r := DoCPostWrite(cn, true); Resting(r) && Shape(r) && CmdInv(r.cl)
  {
    hide Load, WritesFirst, WritesOf, EndsSend, EndsRead;
    PostWriteQueue(cn);
    PostWriteRests(cn);
    var r := DoCPostWrite(cn, true);
    if !cn.faulty { WritesCommit(cn); }
    assert !EndsRead(r.cl.sq) && !Past(r);
  }

  lemma WritesCommit(cn: Conn)
    requires Shape(cn) && Resting(cn) && !cn.faulty && !Committing(cn.cl.stage)
    ensures cn.cl.sq == []
  {
    hide Load, Past, WritesOf;
  }

  lemma PostWriteCredits(cn: Conn)
    requires Credits(cn) && cn.cl.stage == CRecvd(Commit) && Resting(cn) && Resting(DoCPostWrite(cn, true))
    ensures Credits(DoCPostWrite(cn, true))
  {
    hide Load, EndsRead;
  }

  lemma PostWriteKeeps(cn: Conn, ok: bool)
    requires Local(cn) && cn.cl.stage == CRecvd(Commit)
    ensures Local(DoCPostWrite(cn, ok))
  {
    hide Shape, Credits, CmdInv, Resting, GoodTrace, LastIssued, LastReplied, HandlerHas, DecodeRequest;
    if ok {
      ShapeRests(cn);
      PostWriteShape(cn);
      PostWriteCredits(cn);
      RestContent(DoCPostWrite(cn, true));
    } else {
      FailKeeps(cn, Commit);
    }
  }

  lemma PackShape(cn: Conn)
    requires Shape(cn) && Credits(cn) && CmdInv(cn.cl) && CanPack(cn.cl) && Resting(cn)
    ensures var r := DoCPack(cn); Resting(r) && Shape(r) && Credits(r) && CmdInv(r.cl)
  {
    hide Load, PackRequest, ReqOf;
    RestFrame(cn, DoCPack(cn));
  }

  lemma PackKeeps(cn: Conn)
    requires Local(cn) && CanPack(cn.cl)
    ensures Local(DoCPack(cn))
  {
    hide Shape, Credits, CmdInv, Resting, GoodTrace, LastIssued, LastReplied, HandlerHas, DecodeRequest;
    RequestRoundTrip(cn.cl.req, ReqOf(PackCmd(cn.cl), cn.cl.mr));
    ShapeRests(cn);
    PackShape(cn);
    RestContent(DoCPack(cn));
  }

  lemma PostSendContent(cn: Conn)
    requires Shape(cn) && Content(cn) && cn.cl.stage.CPacked?
    ensures Content(DoCPostSend(cn, true))
  {
    hide GoodTrace, HandlerHas, LastIssued, LastReplied, DecodeRequest, UnpackResponse;
    var r := DoCPostSend(cn, true);
    assert EndsSend(r.cl.sq) && !EndsRead(r.cl.sq);
    assert Load(cn) == 0 && Pending(r.cl) == Pending(cn.cl) == [];
  }

  lemma PostSendShape(cn: Conn)
    requires Shape(cn) && Credits(cn) && CmdInv(cn.cl) && cn.cl.stage.CPacked?
    ensures var r := DoCPostSend(cn, true); Shape(r) && Credits(r) && CmdInv(r.cl)
  {
    var r := DoCPostSend(cn, true);
    assert EndsSend(r.cl.sq) && !EndsRead(r.cl.sq);
    assert Load(cn) == 0 && !EndsSend(cn.cl.sq) && !EndsRead(cn.cl.sq);
    assert Pending(r.cl) == Pending(cn.cl) && Load(r) == 1;
  }

  lemma PostSendKeeps(cn: Conn, ok: bool)
    requires Local(cn) && cn.cl.stage.CPacked?
    ensures Local(DoCPostSend(cn, ok))
  {
    hide Shape, Content, Credits, CmdInv;
    if ok {
      PostSendContent(cn);
      PostSendShape(cn);
    } else {
      FailKeeps(cn, cn.cl.stage.cmd);
    }
  }

  lemma WakeKeeps(cn: Conn)
    requires Local(cn) && cn.cl.stage.CWait? && cn.cl.sem != []
    ensures Local(DoCWake(cn))
    ensures cn.cl.sem == [Recv]
  {
  }

  predicate Quiet(cn: Conn) { Resting(cn) && cn.cl.sq == [] }

  predicate AfterUnpack(st: CStage) { st.CIdle? || st.CClosed? || st.CMapDec? }

  lemma QuietShape(cn: Conn)
    requires Quiet(cn) && AfterUnpack(cn.cl.stage)
    ensures Shape(cn)
  {
    hide Load;
  }

  /** The fields that unpacking an answer may set. */
  lemma UnpackFrame(cn: Conn)
    requires cn.cl.stage.CWoken? && UnpackResponse(RspOpcode(cn.cl.stage.cmd), cn.cl.rsp).Accepted?
    ensures var r := DoCUnpack(cn);
            && r.sv == cn.sv && r.faulty == cn.faulty && AfterUnpack(r.cl.stage)
            && (r.broken == cn.broken || r.cl.stage.CClosed?)
            && (r.cl.stage.CClosed? <==> cn.cl.stage.cmd.Close?)
            && r.cl == cn.cl.(stage := r.cl.stage, mr := r.cl.mr, gaveUp := r.cl.gaveUp)
            && r.trace == cn.trace + [Got(UnpackResponse(RspOpcode(cn.cl.stage.cmd), cn.cl.rsp).rsp)]
  {
    hide GetU32, GetU64;
  }

  lemma UnpackCredits(cn: Conn, r: Conn)
    requires Quiet(cn) && Quiet(r) && Credits(cn) && cn.cl.stage.CWoken? && AfterUnpack(r.cl.stage)
    requires r.sv == cn.sv && r.faulty == cn.faulty && (r.broken == cn.broken || r.cl.stage.CClosed?)
    requires r.cl.stage.CClosed? <==> cn.cl.stage.cmd.Close?
    requires r.cl == cn.cl.(stage := r.cl.stage, mr := r.cl.mr, gaveUp := r.cl.gaveUp)
    ensures Credits(r)
  {
    hide Load;
  }

  lemma UnpackCmd(cn: Conn)
    requires CmdInv(cn.cl) && cn.cl.stage.CWoken?
    requires UnpackResponse(RspOpcode(cn.cl.stage.cmd), cn.cl.rsp).Accepted?
    ensures CmdInv(DoCUnpack(cn).cl)
  {
    hide GetU32, GetU64;
  }

  lemma WokenRests(cn: Conn)
    requires Shape(cn) && cn.cl.stage.CWoken?
    ensures Quiet(cn)
  {
    ShapeRests(cn);
  }

  lemma UnpackKeeps(cn: Conn)
    requires Local(cn) && cn.cl.stage.CWoken?
    ensures Local(DoCUnpack(cn))
  {
    hide GoodTrace, Shape, Credits, CmdInv, Load, HandlerHas, DecodeRequest, Resting, UnpackResponse, DoCUnpack;
    var r := DoCUnpack(cn);
    TraceGrows(cn.trace, Got(cn.trace[|cn.trace| - 1].rsp));
    WokenRests(cn);
    UnpackFrame(cn);
    RestFrame(cn, r);
    QuietShape(r);
    UnpackCredits(cn, r);
    UnpackCmd(cn);
    RestContent(r);
  }

  lemma PostReadKeeps(cn: Conn, ok: bool)
    requires Local(cn) && cn.cl.stage.CMapDec?
    ensures Local(DoCPostRead(cn, ok))
  {
  }

  lemma WakeReadKeeps(cn: Conn)
    requires Local(cn) && cn.cl.stage.CReadWait? && cn.cl.sem != []
    ensures Local(DoCWakeRead(cn))
    ensures cn.cl.sem == [Read]
  {
  }

  lemma AppWriteKeeps(cn: Conn, data: seq<Byte>)
    requires Local(cn) && cn.cl.stage.CIdle?
    ensures Local(cn.(cl := cn.cl.(mr := cn.cl.mr.(local := data))))
  {
  }

  lemma ExecSendShape(c: ConnId, cn: Conn, sh: Shared)
    requires Shape(cn) && Credits(cn) && CmdInv(cn.cl) && CanExec(cn) && cn.cl.sq[0].WrSend? && cn.cl.stage.CWait?
    ensures var r := DoCExec(c, cn, sh).0; Shape(r) && Credits(r) && CmdInv(r.cl)
  {
    ReadsAppend(cn.cl.unacked, WrSend);
    ArrivalsAppend(cn.sv.cq, Wc(Recv, true));
    assert cn.cl.sq == [WrSend];
    var r := DoCExec(c, cn, sh).0;
    assert Pending(r.cl) == Pending(cn.cl);
    assert Load(r) == Load(cn);
  }

  lemma ExecSendContent(c: ConnId, cn: Conn, sh: Shared)
    requires Shape(cn) && Content(cn) && CanExec(cn) && cn.cl.sq[0].WrSend?
    ensures Content(DoCExec(c, cn, sh).0) && cn.cl.stage.CWait?
  {
    hide GoodTrace, LastReplied, LastIssued, HandlerHas, DecodeRequest, UnpackResponse;
    ReadsAppend(cn.cl.unacked, WrSend);
    ArrivalsAppend(cn.sv.cq, Wc(Recv, true));
    assert cn.cl.sq == [WrSend];
    assert Pending(DoCExec(c, cn, sh).0.cl) == Pending(cn.cl);
  }

  lemma ExecSendKeeps(c: ConnId, cn: Conn, sh: Shared)
    requires Local(cn) && CanExec(cn) && cn.cl.sq[0].WrSend?
    ensures Local(DoCExec(c, cn, sh).0)
  {
    hide Shape, Content, Credits, CmdInv, DoCExec;
    ExecSendContent(c, cn, sh);
    ExecSendShape(c, cn, sh);
  }

  lemma PopLoad(cn: Conn, r: Conn)
    requires Shape(cn) && cn.cl.sq != [] && cn.cl.sq[0].WrWrite?
    requires r == cn.(cl := cn.cl.(sq := cn.cl.sq[1..], unacked := cn.cl.unacked + [cn.cl.sq[0]]))
    requires Reads(r.cl.unacked) == Reads(cn.cl.unacked)
    ensures EndsSend(r.cl.sq) == EndsSend(cn.cl.sq) && EndsRead(r.cl.sq) == EndsRead(cn.cl.sq)
    ensures Pending(r.cl) == Pending(cn.cl) && Load(r) == Load(cn) && !Past(cn) && !Past(r)
  {
    hide Reads;
  }

  lemma PopShape(cn: Conn, r: Conn)
    requires Shape(cn) && Credits(cn) && CmdInv(cn.cl) && cn.cl.sq != [] && cn.cl.sq[0].WrWrite?
    requires r == cn.(cl := cn.cl.(sq := cn.cl.sq[1..], unacked := cn.cl.unacked + [cn.cl.sq[0]]))
    requires Reads(r.cl.unacked) == Reads(cn.cl.unacked)
    ensures Shape(r) && Credits(r) && CmdInv(r.cl)
  {
    hide Load, Past, Pending;
    PopLoad(cn, r);
    assert Expecting(r) == Expecting(cn) && Closing(r) == Closing(cn);
  }

  lemma PopWriteKeeps(cn: Conn)
    requires Local(cn) && cn.cl.sq != [] && cn.cl.sq[0].WrWrite?
    ensures Local(cn.(cl := cn.cl.(sq := cn.cl.sq[1..], unacked := cn.cl.unacked + [cn.cl.sq[0]])))
  {
    hide Shape, Content, Credits, CmdInv;
    ReadsAppend(cn.cl.unacked, cn.cl.sq[0]);
    var r := cn.(cl := cn.cl.(sq := cn.cl.sq[1..], unacked := cn.cl.unacked + [cn.cl.sq[0]]));
    assert Pending(r.cl) == Pending(cn.cl);
    FlushContent(cn, r);
    PopShape(cn, r);
  }

  lemma ExecWriteKeeps(c: ConnId, cn: Conn, sh: Shared)
    requires Local(cn) && CanExec(cn) && cn.cl.sq[0].WrWrite?
    ensures Local(DoCExec(c, cn, sh).0)
  {
    hide Local;
    PopWriteKeeps(cn);
    BreakKeeps(cn);
  }

  lemma ExecReadKeeps(c: ConnId, cn: Conn, sh: Shared)
    requires Local(cn) && CanExec(cn) && cn.cl.sq[0].WrRead?
    ensures Local(DoCExec(c, cn, sh).0)
  {
    ReadsAppend(cn.cl.unacked, cn.cl.sq[0]);
    assert |cn.cl.sq| == 1;
  }

  lemma CompletePending(cn: Conn)
    requires cn.cl.unacked != []
    ensures Pending(DoCComplete(cn).cl) ==
            Pending(cn.cl) + (if cn.cl.unacked[0].WrRead? then [Read] else [])
    ensures Load(DoCComplete(cn)) == Load(cn)
  {
    PostsAppend(cn.cl.cq, Wc(OpOf(cn.cl.unacked[0]), true));
    assert Pending(DoCComplete(cn).cl) ==
           Pending(cn.cl) + (if cn.cl.unacked[0].WrRead? then [Read] else []);
  }

  /** Nothing that the invariant counts differs between the two. */
  ghost predicate SameLoad(cn: Conn, r: Conn)
  {
    && r == cn.(cl := r.cl) && r.cl == cn.cl.(unacked := r.cl.unacked, cq := r.cl.cq, sem := r.cl.sem)
    && Load(r) == Load(cn)
    && Pending(r.cl) == Pending(cn.cl) && Reads(r.cl.unacked) == Reads(cn.cl.unacked)
    && (NoErrors(cn.cl.cq) ==> NoErrors(r.cl.cq))
  }

  lemma SameContent(cn: Conn, r: Conn)
    requires SameLoad(cn, r) && Content(cn)
    ensures Content(r)
  {
    hide GoodTrace, LastIssued, LastReplied, HandlerHas, Load, DecodeRequest;
  }

  lemma SameShape(cn: Conn, r: Conn)
    requires SameLoad(cn, r) && Shape(cn) && Credits(cn) && CmdInv(cn.cl)
    ensures Shape(r) && Credits(r) && CmdInv(r.cl)
  {
    hide Load;
    assert Past(r) == Past(cn) && Expecting(r) == Expecting(cn) && Closing(r) == Closing(cn);
  }

  lemma CompleteOtherKeeps(cn: Conn)
    requires Local(cn) && !cn.broken && cn.cl.unacked != [] && !cn.cl.unacked[0].WrRead?
    ensures Local(DoCComplete(cn))
  {
    hide Shape, Content, Credits, CmdInv, Load, Posts;
    CompletePending(cn);
    SameContent(cn, DoCComplete(cn));
    SameShape(cn, DoCComplete(cn));
  }

  /** A READ that was executed is all there is on its connection. */
  lemma ReadAlone(cn: Conn)
    requires Local(cn) && cn.cl.unacked != [] && cn.cl.unacked[0].WrRead?
    ensures cn.cl.stage.CReadWait? && cn.cl.sq == [] && Pending(cn.cl) == [] && Reads(cn.cl.unacked) == 1
    ensures cn.sv.sq == 0 && Arrivals(cn.sv.cq) == 0 && !Active(cn.sv.stage)
  {
    hide Credits, GoodTrace, LastIssued, LastReplied, HandlerHas, WritesFirst, WritesOf;
    assert cn.cl.stage.CReadWait?;
    RestQueue(cn);
  }

  lemma CompleteReadShape(cn: Conn)
    requires Shape(cn) && Credits(cn) && CmdInv(cn.cl) && !cn.broken && cn.cl.stage.CReadWait?
    requires cn.cl.sq == [] && cn.cl.unacked != [] && Load(DoCComplete(cn)) == Load(cn)
    requires cn.sv.sq == 0 && Arrivals(cn.sv.cq) == 0 && !Active(cn.sv.stage)
    ensures var r := DoCComplete(cn); Shape(r) && Credits(r) && CmdInv(r.cl)
  {
    hide Load, Posts;
  }

  lemma CompleteReadContent(cn: Conn)
    requires Content(cn) && cn.cl.stage.CReadWait? && cn.cl.sq == [] && cn.cl.unacked != []
    requires cn.sv.sq == 0 && Arrivals(cn.sv.cq) == 0 && !Active(cn.sv.stage)
    requires Pending(DoCComplete(cn).cl) == [Read]
    ensures Content(DoCComplete(cn))
  {
    hide GoodTrace, LastIssued, LastReplied, HandlerHas, DecodeRequest, Pending;
  }

  lemma CompleteReadKeeps(cn: Conn)
    requires Local(cn) && !cn.broken && cn.cl.unacked != [] && cn.cl.unacked[0].WrRead?
    ensures Local(DoCComplete(cn))
  {
    hide Shape, Content, Credits, CmdInv, Load, Pending;
    CompletePending(cn);
    ReadAlone(cn);
    CompleteReadShape(cn);
    CompleteReadContent(cn);
  }

  lemma PollPending(cn: Conn)
    requires cn.cl.cq != []
    ensures Pending(DoCPoll(cn).cl) == Pending(cn.cl)
  {
  }

  lemma PollKeeps(cn: Conn)
    requires Local(cn) && cn.cl.cq != []
    ensures Local(DoCPoll(cn))
    ensures Pending(DoCPoll(cn).cl) == Pending(cn.cl)
  {
    hide Shape, Content, Credits, CmdInv, Posts;
    PollPending(cn);
    SameContent(cn, DoCPoll(cn));
    SameShape(cn, DoCPoll(cn));
  }

  /** Polling moves nothing that the invariant counts. */
  lemma SPollKeeps(cn: Conn, polled: nat, drained: nat)
    requires Local(cn) && polled <= |cn.sv.cq| && polled <= drained < BUDGET + BATCH
    ensures Local(cn.(sv := cn.sv.(polled := polled, drained := drained)))
  {
    hide GoodTrace, LastReplied, LastIssued, UnpackResponse, DecodeRequest;
  }

  lemma SHandleKeeps(cn: Conn)
    requires Local(cn) && CanHandle(cn.sv)
    ensures Local(DoSHandle(cn))
  {
    hide GoodTrace, LastReplied, LastIssued, UnpackResponse;
  }

  lemma SDecodeKeeps(c: ConnId, cn: Conn, sh: Shared)
    requires Local(cn) && cn.sv.stage.SDispatched?
    ensures Local(DoSDecode(c, cn, sh))
  {
  }

  lemma SReadFreeKeeps(cn: Conn, size: S32)
    requires Local(cn) && cn.sv.stage.SDecoded? && cn.sv.stage.q.OpenReq?
    ensures Local(cn.(sv := cn.sv.(stage := SOpenRead(size))))
  {
  }

  lemma SRepostKeeps(cn: Conn, ok: bool, rkey: U32, addr: U64)
    requires Local(cn) && CanRepost(cn.sv)
    ensures Local(DoSRepost(cn, ok, rkey, addr))
  {
  }

  /** The handler moves on between two stages that hold the same request. */
  lemma SMoveKeeps(cn: Conn, st: SStage)
    requires Local(cn) && Active(cn.sv.stage)
    requires Active(st) && !Unposted(st) && InBody(cn.sv.stage)
    requires cn.cl.stage.CWait? ==> HandlerHas(cn.sv.(stage := st), ReqOf(cn.cl.stage.cmd, cn.cl.mr))
    ensures Local(cn.(sv := cn.sv.(stage := st)))
  {
  }

  lemma SPackKeeps(cn: Conn)
    requires Local(cn) && cn.sv.stage.SReply?
    ensures Local(DoSPack(cn))
  {
    ResponseRoundTrip(cn.sv.rsp, cn.sv.stage.rsp, ResponseOpcode(cn.sv.stage.rsp));
  }

  lemma ReplyContent(cn: Conn, ok: bool)
    requires Local(cn) && cn.sv.stage.SPacked?
    ensures Content(DoSPostSend(cn, ok))
  {
    hide GoodTrace, DecodeRequest, UnpackResponse, CmdInv, Credits;
    TraceGrows(cn.trace, Replied(cn.sv.stage.q, cn.sv.stage.rsp));
  }

  lemma ReplyShape(cn: Conn, ok: bool)
    requires Local(cn) && cn.sv.stage.SPacked?
    ensures var r := DoSPostSend(cn, ok); Shape(r) && Credits(r) && CmdInv(r.cl)
  {
    hide GoodTrace, LastIssued, LastReplied, HandlerHas, DecodeRequest, UnpackResponse, ReqOf;
  }

  lemma SPostSendKeeps(cn: Conn, ok: bool)
    requires Local(cn) && cn.sv.stage.SPacked?
    ensures Local(DoSPostSend(cn, ok))
  {
    hide Shape, Content, Credits, CmdInv, DoSPostSend;
    ReplyContent(cn, ok);
    ReplyShape(cn, ok);
  }

  lemma SReturnKeeps(cn: Conn)
    requires Local(cn) && cn.sv.stage.SSent?
    ensures Local(cn.(sv := cn.sv.(stage := SIdle)))
  {
  }

  lemma SDeliverKeeps(cn: Conn)
    requires Local(cn) && CanDeliver(cn)
    ensures Local(DoSDeliver(cn))
  {
    PostsAppend(cn.cl.cq, Wc(Recv, true));
  }

  lemma SAckKeeps(cn: Conn)
    requires Local(cn) && cn.sv.unacked > 0
    ensures Local(cn.(sv := cn.sv.(unacked := cn.sv.unacked - 1, cq := cn.sv.cq + [Wc(Send, true)])))
  {
    hide GoodTrace, LastReplied, LastIssued;
    ArrivalsAppend(cn.sv.cq, Wc(Send, true));
  }

  lemma BreakKeeps(cn: Conn)
    requires Local(cn)
    ensures Local(cn.(broken := true, faulty := true))
  {
  }

  lemma FlushRecvShape(cn: Conn)
    requires Shape(cn) && Credits(cn) && CmdInv(cn.cl) && cn.broken && cn.cl.recvs > 0
    requires Pending(DoCFlushRecv(cn).cl) == Pending(cn.cl)
    ensures var r := DoCFlushRecv(cn); Shape(r) && Credits(r) && CmdInv(r.cl)
  {
    hide Pending, WritesFirst, WritesOf, EndsSend, EndsRead, Reads;
  }

  lemma CFlushRecvKeeps(cn: Conn)
    requires Local(cn) && cn.broken && cn.cl.recvs > 0
    ensures Local(DoCFlushRecv(cn))
  {
    hide Shape, Content, Credits, CmdInv;
    PostsAppend(cn.cl.cq, Wc(Recv, false));
    assert Pending(DoCFlushRecv(cn).cl) == Pending(cn.cl);
    FlushContent(cn, DoCFlushRecv(cn));
    FlushRecvShape(cn);
  }

  lemma FlushContent(cn: Conn, r: Conn)
    requires Content(cn) && r == cn.(cl := r.cl)
    requires r.cl == cn.cl.(sq := r.cl.sq, unacked := r.cl.unacked, cq := r.cl.cq, recvs := r.cl.recvs)
    requires Pending(r.cl) == Pending(cn.cl) && Reads(r.cl.unacked) <= Reads(cn.cl.unacked)
    requires r.cl.sq == cn.cl.sq || (cn.cl.sq != [] && r.cl.sq == cn.cl.sq[1..])
    ensures Content(r)
  {
    hide GoodTrace, LastReplied, LastIssued, HandlerHas, DecodeRequest, Reads, Pending;
    assert EndsSend(r.cl.sq) ==> EndsSend(cn.cl.sq);
    assert EndsRead(r.cl.sq) ==> EndsRead(cn.cl.sq) && r.cl.sq[|r.cl.sq| - 1] == cn.cl.sq[|cn.cl.sq| - 1];
  }

  lemma FlushQueue(cn: Conn)
    requires Shape(cn) && CanFlushSend(cn.cl)
    ensures var r := DoCFlushSend(cn);
            && WritesFirst(r.cl.sq) && (!cn.cl.gaveUp ==> WritesOf(r.cl.sq, cn.cl.mr))
            && (EndsSend(r.cl.sq) ==> EndsSend(cn.cl.sq)) && (EndsRead(r.cl.sq) ==> EndsRead(cn.cl.sq) && |r.cl.sq| == 1)
            && Reads(r.cl.unacked) <= Reads(cn.cl.unacked) && |r.cl.sq| <= |cn.cl.sq|
            && (r.cl.sq != [] && r.cl.sq[0].WrWrite? ==> MayWrite(cn.cl) && (!cn.faulty ==> Committing(cn.cl.stage)))
  {
    hide Load, Past;
  }

  lemma FlushShape(cn: Conn)
    requires Shape(cn) && Credits(cn) && CmdInv(cn.cl) && cn.broken && CanFlushSend(cn.cl)
    requires Pending(DoCFlushSend(cn).cl) == Pending(cn.cl)
    ensures var r := DoCFlushSend(cn); Shape(r) && Credits(r) && CmdInv(r.cl)
  {
    hide Pending, WritesFirst, WritesOf, EndsSend, EndsRead, Reads;
    FlushQueue(cn);
  }

  lemma CFlushSendKeeps(cn: Conn)
    requires Local(cn) && cn.broken && CanFlushSend(cn.cl)
    ensures Local(DoCFlushSend(cn))
  {
    hide Shape, Content, Credits, CmdInv;
    var w := if cn.cl.unacked != [] then cn.cl.unacked[0] else cn.cl.sq[0];
    PostsAppend(cn.cl.cq, Wc(OpOf(w), false));
    assert Pending(DoCFlushSend(cn).cl) == Pending(cn.cl);
    FlushContent(cn, DoCFlushSend(cn));
    FlushShape(cn);
  }

  lemma SErrorKeeps(cn: Conn, op: Op)
    requires Local(cn)
    ensures Local(cn.(sv := cn.sv.(cq := cn.sv.cq + [Wc(op, false)])))
  {
    ArrivalsAppend(cn.sv.cq, Wc(op, false));
  }
}
