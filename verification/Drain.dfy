/** The server's drain loop counts completions, and its thread ends when it has polled 64 of
    them without finding its queue empty. What that means for the request of a command:
    whether it can still be reached, and whether it can still be missed. */
module Drain {
  import opened Wire
  import opened PoolModel
  import opened System
  import opened Invariant
  import opened SharedSteps
  import opened Induction
  import opened Safety
  import opened Termination
  import LocalSteps

  predicate Busy(cn: Conn) { !cn.cl.stage.CIdle? && !cn.cl.stage.CClosed? }

  // ---- the completions that the server's drain loop has seen or will see

  /** Completions at the server since a poll last found its queue empty, with those that
      its posted answers still owe. */
  function Seen(sv: Server): (n: int) { sv.drained + |sv.cq| - sv.polled + sv.unacked + sv.sq }

  /** The request of the running command has not been delivered. */
  predicate ToCome(cn: Conn)
  {
    || cn.cl.stage.CBegun? || cn.cl.stage.CRecvd? || cn.cl.stage.CWrote? || cn.cl.stage.CPacked?
    || EndsSend(cn.cl.sq)
  }

  predicate Arrived(cn: Conn) { Arrivals(cn.sv.cq) > 0 }

  /** Every command costs the server two completions, the request's and the answer's; the
      tally counts them from the moment the command begins. */
  function Tally(cn: Conn): (n: int)
  {
    Seen(cn.sv) + 2 * Count(ToCome(cn)) + Count(Arrived(cn) || Active(cn.sv.stage))
  }

  function IssuedIn(tr: seq<Event>): (n: nat)
  {
    if tr == [] then 0 else IssuedIn(tr[..|tr| - 1]) + Count(tr[|tr| - 1].Issued?)
  }

  lemma IssuedAppend(tr: seq<Event>, ev: Event)
    ensures IssuedIn(tr + [ev]) == IssuedIn(tr) + Count(ev.Issued?)
  {
    assert (tr + [ev])[..|tr|] == tr;
  }

  /** The commands begun on a connection, its open included. */
  function Commands(cn: Conn): (n: nat) { IssuedIn(cn.trace) + Count(cn.cl.stage.CBegun?) }

  /** A step leaves the tally as it is, begins no command, and no request appears from
      nowhere. */
  predicate SameTally(cn: Conn, r: Conn)
  {
    && Tally(r) == Tally(cn) && Commands(r) == Commands(cn)
    && (ToCome(r) || Arrived(r) ==> ToCome(cn) || Arrived(cn))
  }

  lemma IssueTally(c: ConnId, cn: Conn, sh: Shared, a: Step)
    requires CanIssue(c, cn, sh, a) && !a.Begin? && !DoIssue(c, cn, sh, a).0.faulty
    ensures SameTally(cn, DoIssue(c, cn, sh, a).0)
  {
    hide PackRequest, ReqOf, IssuedIn;
    if a.CPostRecv? { IssuedAppend(cn.trace, Issued(ReqOf(cn.cl.stage.cmd, cn.cl.mr))); }
  }

  lemma UnpackTally(cn: Conn)
    requires cn.cl.stage.CWoken? && !DoCUnpack(cn).faulty
    ensures SameTally(cn, DoCUnpack(cn))
  {
    hide UnpackResponse, IssuedIn, Arrivals, Seen;
    var got := UnpackResponse(RspOpcode(cn.cl.stage.cmd), cn.cl.rsp);
    if got.Accepted? { IssuedAppend(cn.trace, Got(got.rsp)); }
  }

  lemma FinishTally(c: ConnId, cn: Conn, sh: Shared, a: Step)
    requires Shape(cn) && CanFinish(c, cn, sh, a) && !a.AppWrite? && !DoFinish(c, cn, sh, a).0.faulty
    ensures SameTally(cn, DoFinish(c, cn, sh, a).0)
  {
    hide Load, IssuedIn, DoCUnpack, Arrivals, Seen;
    if a.CPostRead? { assert cn.cl.sq == []; }
    if a.CUnpack? { UnpackTally(cn); }
  }

  lemma ExecTally(c: ConnId, cn: Conn, sh: Shared)
    requires Shape(cn) && CanExec(cn) && (EndsSend(cn.cl.sq) ==> cn.cl.stage.CWait?) && !DoCExec(c, cn, sh).0.faulty
    ensures SameTally(cn, DoCExec(c, cn, sh).0)
  {
    hide Access, WriteBytes, IssuedIn;
    ArrivalsAppend(cn.sv.cq, Wc(Recv, true));
    var r := DoCExec(c, cn, sh).0;
    if cn.cl.sq[0].WrSend? {
      assert cn.cl.sq == [WrSend] && r.cl.sq == [];
    } else {
      assert EndsSend(r.cl.sq) == EndsSend(cn.cl.sq);
    }
  }

  lemma AdapterTally(c: ConnId, cn: Conn, sh: Shared, a: Step)
    requires Shape(cn) && Content(cn) && CanAdapter(c, cn, sh, a) && Ordinary(a) && !DoAdapter(c, cn, sh, a).0.faulty
    ensures SameTally(cn, DoAdapter(c, cn, sh, a).0)
  {
    hide Shape, GoodTrace, LastIssued, LastReplied, HandlerHas, DoCExec, Posts, IssuedIn;
    if a.CExec? { ExecTally(c, cn, sh); }
  }

  lemma TakeTally(c: ConnId, cn: Conn, sh: Shared, a: Step)
    requires Shape(cn) && CanServer(c, cn, sh, a) && TakesRequest(a) && !a.SPollEmpty?
    requires a.SDecode? ==> !HandlerView(cn.sv.stage.op, cn.sv.req).UnknownReq?
    ensures SameTally(cn, DoServer(c, cn, sh, a).0)
  {
    hide GetU32, GetU64, Zeroed, Pending, Reads, IssuedIn;
  }

  lemma ReplyTally(c: ConnId, cn: Conn, sh: Shared, a: Step)
    requires Shape(cn) && CanServer(c, cn, sh, a) && !TakesRequest(a) && !a.SError? && !DoServer(c, cn, sh, a).0.faulty
    ensures SameTally(cn, DoServer(c, cn, sh, a).0)
  {
    hide PackResponse, Pending, Reads, IssuedIn;
    ArrivalsAppend(cn.sv.cq, Wc(Send, true));
    if a.SPostSend? { IssuedAppend(cn.trace, Replied(cn.sv.stage.q, cn.sv.stage.rsp)); }
  }

  lemma HandlerTally(c: ConnId, cn: Conn, sh: Shared, a: Step)
    requires Local(cn) && Mapping(c, cn, sh) && CanHandler(c, cn, sh, a)
    ensures SameTally(cn, DoHandler(c, cn, sh, a).0)
  {
    hide Local, Mapping, DoHandler, CanHandler, Handling;
    HandlerStage(c, cn, sh, a);
    HandlerActive(c, cn, sh, a);
  }

  lemma HandlerActive(c: ConnId, cn: Conn, sh: Shared, a: Step)
    requires CanHandler(c, cn, sh, a)
    ensures Active(cn.sv.stage) && Active(DoHandler(c, cn, sh, a).0.sv.stage)
  {
    hide MapBytes, UnmapBytes, Fresh, Mapped, Store, CanStore;
  }

  lemma DecodeKnown(cn: Conn)
    requires Content(cn) && cn.sv.stage.SDispatched?
    ensures !HandlerView(cn.sv.stage.op, cn.sv.req).UnknownReq?
  {
    hide GoodTrace, LastIssued, LastReplied, GetU32, GetU64, UnpackResponse;
    assert Active(cn.sv.stage);
  }

  /** Every step of a command that meets no failure keeps the tally, except the poll that
      finds the queue empty, which resets the part of it that was polled. */
  lemma TallyStep(c: ConnId, cn: Conn, sh: Shared, a: Step)
    requires ConnInv(c, cn, sh) && Enabled(c, cn, sh, a) && Ordinary(a) && !Apply(c, cn, sh, a).0.faulty
    ensures !a.SPollEmpty? ==> SameTally(cn, Apply(c, cn, sh, a).0)
    ensures a.SPollEmpty? ==> Tally(Apply(c, cn, sh, a).0) == Tally(cn) - cn.sv.drained
    ensures a.SPollEmpty? ==> Commands(Apply(c, cn, sh, a).0) == Commands(cn)
  {
    hide Shape, Content, Credits, CmdInv, Mapping, SameTally, Tally, Commands, DoIssue, DoFinish, DoAdapter, DoServer, DoHandler,
      CanIssue, CanFinish, CanAdapter, CanServer, CanHandler, HandlerView;
    if Issues(a) {
      IssueTally(c, cn, sh, a);
    } else if Finishes(a) {
      FinishTally(c, cn, sh, a);
    } else if ClientAdapter(a) {
      AdapterTally(c, cn, sh, a);
    } else if Handlers(a) {
      HandlerTally(c, cn, sh, a);
    } else if a.SPollEmpty? {
      EmptyTally(c, cn, sh);
    } else if TakesRequest(a) {
      if a.SDecode? { DecodeStage(c, cn, sh); DecodeKnown(cn); }
      TakeTally(c, cn, sh, a);
    } else {
      ReplyTally(c, cn, sh, a);
    }
  }

  lemma EmptyTally(c: ConnId, cn: Conn, sh: Shared)
    requires CanServer(c, cn, sh, SPollEmpty)
    ensures Tally(DoServer(c, cn, sh, SPollEmpty).0) == Tally(cn) - cn.sv.drained
    ensures Commands(DoServer(c, cn, sh, SPollEmpty).0) == Commands(cn)
  {
  }

  lemma DecodeStage(c: ConnId, cn: Conn, sh: Shared)
    requires CanServer(c, cn, sh, SDecode)
    ensures cn.sv.stage.SDispatched?
  {
  }

  // ---- the place of a request in the drain

  /** The completions in front of the request, or all of them if it has not arrived. */
  function Before(cq: seq<Wc>): (n: nat)
    ensures n <= |cq|
    ensures n < |cq| <==> Arrivals(cq) > 0
  {
    if cq == [] || cq[0] == Wc(Recv, true) then 0 else 1 + Before(cq[1..])
  }

  lemma {:induction false} BeforeAppend(cq: seq<Wc>, w: Wc)
    ensures Before(cq + [w]) == Before(cq) + Count(Arrivals(cq) == 0 && w != Wc(Recv, true))
  {
    if cq == [] {
      assert cq + [w] == [w] && [w][1..] == [];
    } else {
      BeforeAppend(cq[1..], w);
      assert (cq + [w])[1..] == cq[1..] + [w];
    }
  }

  predicate Asked(cn: Conn) { ToCome(cn) || Arrived(cn) }

  /** The request of the running command is under way and no poll has returned it. */
  predicate Unpolled(cn: Conn) { Asked(cn) && cn.sv.polled <= Before(cn.sv.cq) }

  /** How many completions the loop polls before the request, counted from its last empty
      poll, if every completion already there is polled first. */
  function Ahead(sv: Server): (n: int) { sv.drained - sv.polled + Before(sv.cq) }

  /** The same, with the completions of earlier answers that may still come first. */
  function MostAhead(cn: Conn): (n: int)
  {
    Ahead(cn.sv) + (if Arrived(cn) then 0 else cn.sv.unacked + cn.sv.sq)
  }

  /** The loop may use up its budget before it polls the request. */
  predicate AtRisk(cn: Conn) { Unpolled(cn) && MostAhead(cn) >= BUDGET }

  /** The loop uses up its budget before it polls the request, however large the batches
      that its polls return: the last poll starts at 63 completions and returns 16. */
  predicate Late(cn: Conn)
  {
    Unpolled(cn) && (cn.sv.drained >= BUDGET || Ahead(cn.sv) > BUDGET + BATCH - 2)
  }

  /** The request has been posted, and nobody is left to take it. */
  predicate Deaf(cn: Conn) { Ended(cn.sv) && (EndsSend(cn.cl.sq) || Arrived(cn)) }

  /** What a step does to a request that no poll has returned. */
  predicate StillUnpolled(cn: Conn, r: Conn, a: Step)
  {
    if a.SPoll? then Asked(r) && r.sv == cn.sv.(polled := a.n, drained := cn.sv.drained + a.n)
    else if a.SPollEmpty? then Asked(r) && r.sv == cn.sv.(drained := 0)
    else
      && Unpolled(r) && (Arrived(cn) ==> Arrived(r)) && (Arrived(r) ==> Arrived(cn) || a.CExec?)
      && r.sv.drained == cn.sv.drained
      && Ahead(r.sv) >= Ahead(cn.sv)
      && (!a.SAck? ==> Ahead(r.sv) == Ahead(cn.sv))
      && MostAhead(r) <= MostAhead(cn)
      && (!a.CExec? ==> MostAhead(r) == MostAhead(cn))
  }

  lemma AskedLoad(cn: Conn)
    requires Local(cn) && Asked(cn)
    ensures !Active(cn.sv.stage) && cn.sv.sq == 0 && Pending(cn.cl) == []
    ensures EndsSend(cn.cl.sq) || Arrived(cn) ==> cn.cl.stage.CWait?
    ensures !cn.faulty ==> !cn.broken
    ensures cn.cl.stage.CBegun? || cn.cl.stage.CRecvd? || cn.cl.stage.CWrote? || cn.cl.stage.CPacked? || cn.cl.stage.CWait?
    ensures !(ToCome(cn) && Arrived(cn))
  {
    hide CmdInv, GoodTrace, LastIssued, LastReplied, HandlerHas;
  }

  lemma IssueUnpolled(c: ConnId, cn: Conn, sh: Shared, a: Step)
    requires Local(cn) && Unpolled(cn) && CanIssue(c, cn, sh, a) && !DoIssue(c, cn, sh, a).0.faulty
    ensures StillUnpolled(cn, DoIssue(c, cn, sh, a).0, a)
  {
    hide Local, PackRequest, ReqOf, Before, Arrivals;
    AskedLoad(cn);
  }

  lemma FinishAsked(c: ConnId, cn: Conn, sh: Shared, a: Step)
    requires Local(cn) && Asked(cn)
    ensures !CanFinish(c, cn, sh, a)
  {
    hide Local, Arrivals;
    AskedLoad(cn);
  }

  lemma ExecUnpolled(c: ConnId, cn: Conn, sh: Shared)
    requires Local(cn) && Unpolled(cn) && CanExec(cn) && !DoCExec(c, cn, sh).0.faulty
    ensures StillUnpolled(cn, DoCExec(c, cn, sh).0, CExec)
  {
    hide CmdInv, Content, Credits, Access, WriteBytes, Arrivals, Before, Reads, Posts;
    AskedLoad(cn);
    ArrivalsAppend(cn.sv.cq, Wc(Recv, true));
    BeforeAppend(cn.sv.cq, Wc(Recv, true));
    var r := DoCExec(c, cn, sh).0;
    if cn.cl.sq[0].WrSend? {
      assert cn.cl.sq == [WrSend];
    } else {
      assert EndsSend(r.cl.sq) == EndsSend(cn.cl.sq);
    }
  }

  lemma AdapterUnpolled(c: ConnId, cn: Conn, sh: Shared, a: Step)
    requires Local(cn) && Unpolled(cn) && CanAdapter(c, cn, sh, a) && !DoAdapter(c, cn, sh, a).0.faulty
    ensures StillUnpolled(cn, DoAdapter(c, cn, sh, a).0, a)
  {
    hide Local, DoCExec, Arrivals, Before, Posts;
    AskedLoad(cn);
    if a.CExec? { ExecUnpolled(c, cn, sh); }
  }

  lemma HandleUnpolled(cn: Conn)
    requires Unpolled(cn) && CanHandle(cn.sv)
    ensures StillUnpolled(cn, DoSHandle(cn), SHandle)
  {
    hide GetU32;
  }

  lemma ServerUnpolled(c: ConnId, cn: Conn, sh: Shared, a: Step)
    requires Local(cn) && Unpolled(cn) && CanServer(c, cn, sh, a) && !DoServer(c, cn, sh, a).0.faulty
    ensures StillUnpolled(cn, DoServer(c, cn, sh, a).0, a)
  {
    hide Local, PackResponse, HandlerView, Arrivals, Before, DoSHandle;
    AskedLoad(cn);
    ArrivalsAppend(cn.sv.cq, Wc(Send, true));
    BeforeAppend(cn.sv.cq, Wc(Send, true));
    if a.SHandle? { HandleUnpolled(cn); }
  }

  lemma UnpolledStep(c: ConnId, cn: Conn, sh: Shared, a: Step)
    requires ConnInv(c, cn, sh) && Unpolled(cn) && Enabled(c, cn, sh, a) && !Apply(c, cn, sh, a).0.faulty
    ensures StillUnpolled(cn, Apply(c, cn, sh, a).0, a)
  {
    hide Local, Mapping, StillUnpolled, DoIssue, DoFinish, DoAdapter, DoServer, DoHandler,
      CanIssue, CanFinish, CanAdapter, CanServer, CanHandler;
    if Issues(a) {
      IssueUnpolled(c, cn, sh, a);
    } else if Finishes(a) {
      FinishAsked(c, cn, sh, a);
    } else if ClientAdapter(a) {
      AdapterUnpolled(c, cn, sh, a);
    } else if Handlers(a) {
      AskedLoad(cn);
      HandlerActive(c, cn, sh, a);
    } else {
      ServerUnpolled(c, cn, sh, a);
    }
  }

  /** Once it is too late for a request, it stays so. */
  lemma LateStep(c: ConnId, cn: Conn, sh: Shared, a: Step)
    requires ConnInv(c, cn, sh) && Late(cn) && Enabled(c, cn, sh, a) && !Apply(c, cn, sh, a).0.faulty
    ensures Late(Apply(c, cn, sh, a).0)
  {
    hide ConnInv, Apply, CanIssue, CanFinish, CanAdapter, CanHandler;
    UnpolledStep(c, cn, sh, a);
  }

  lemma PolledServer(c: ConnId, cn: Conn, sh: Shared, a: Step)
    requires CanServer(c, cn, sh, a) && Before(cn.sv.cq) < cn.sv.polled <= |cn.sv.cq| && Arrivals(cn.sv.cq) <= 1
    ensures var r := DoServer(c, cn, sh, a).0;
            Before(r.sv.cq) < r.sv.polled || (!Arrived(r) && ToCome(r) == ToCome(cn))
  {
    hide PackResponse, HandlerView;
    if a.SAck? { BeforeAppend(cn.sv.cq, Wc(Send, true)); }
    if a.SError? { BeforeAppend(cn.sv.cq, Wc(a.op, false)); }
  }

  lemma PolledAdapter(c: ConnId, cn: Conn, sh: Shared, a: Step)
    requires CanAdapter(c, cn, sh, a) && Before(cn.sv.cq) < cn.sv.polled <= |cn.sv.cq|
    ensures var r := DoAdapter(c, cn, sh, a).0; Before(r.sv.cq) < r.sv.polled
  {
    hide Access, WriteBytes;
    if a.CExec? { BeforeAppend(cn.sv.cq, Wc(Recv, true)); }
  }

  /** A request that a poll has returned is not put back. */
  lemma PolledStep(c: ConnId, cn: Conn, sh: Shared, a: Step)
    requires ConnInv(c, cn, sh) && Before(cn.sv.cq) < cn.sv.polled && Enabled(c, cn, sh, a)
    ensures !Unpolled(Apply(c, cn, sh, a).0)
  {
    hide Shape, Content, CmdInv, Mapping, DoIssue, DoFinish, DoAdapter, DoServer, DoHandler,
      CanIssue, CanFinish, CanAdapter, CanServer, CanHandler, Before, Arrivals;
    AskedLoad(cn);
    if Issues(a) {
      IssueServer(c, cn, sh, a);
    } else if Finishes(a) {
      FinishServer(c, cn, sh, a);
    } else if ClientAdapter(a) {
      PolledAdapter(c, cn, sh, a);
    } else if Handlers(a) {
      HandlerStage(c, cn, sh, a);
    } else {
      PolledServer(c, cn, sh, a);
    }
  }

  /** A request that the loop is certain to poll stays so, until it has been polled. */
  lemma SafeStep(c: ConnId, cn: Conn, sh: Shared, a: Step)
    requires ConnInv(c, cn, sh) && !AtRisk(cn) && Enabled(c, cn, sh, a) && Ordinary(a)
    requires !Apply(c, cn, sh, a).0.faulty
    ensures !AtRisk(Apply(c, cn, sh, a).0)
  {
    hide ConnInv, Apply, CanIssue, CanFinish, CanAdapter, CanHandler, ToCome, Arrivals, Before;
    if Unpolled(cn) {
      UnpolledStep(c, cn, sh, a);
    } else if Asked(cn) {
      PolledStep(c, cn, sh, a);
    } else {
      NotAsked(c, cn, sh, a);
    }
  }

  lemma NotAsked(c: ConnId, cn: Conn, sh: Shared, a: Step)
    requires ConnInv(c, cn, sh) && !Asked(cn) && Enabled(c, cn, sh, a) && Ordinary(a)
    requires !Apply(c, cn, sh, a).0.faulty
    ensures !Asked(Apply(c, cn, sh, a).0)
  {
    hide ConnInv, CanIssue, CanFinish, CanAdapter, CanHandler, DoIssue, DoFinish, DoAdapter, DoHandler;
    TallyStep(c, cn, sh, a);
  }

  // ---- over runs

  lemma LateNext(s: State, d: ConnId, a: Step, c: ConnId)
    requires Inv(s) && CanStep(s, d, a) && c in s.conns && Late(s.conns[c]) && !Next(s, d, a).conns[c].faulty
    ensures Late(Next(s, d, a).conns[c])
  {
    hide ConnInv, SharedInv, Enabled, Apply, Late;
    if d == c { LateStep(c, s.conns[c], s.sh, a); }
  }

  /** Too late is for ever: while nothing fails, the command does not return, whatever any
      connection does. */
  lemma {:induction false} LateForever(s: State, acts: seq<Act>, t: State, c: ConnId)
    requires Inv(s) && c in s.conns && Late(s.conns[c]) && Path(s, acts, t)
    requires c in t.conns && !t.conns[c].faulty
    ensures Inv(t) && Late(t.conns[c]) && Busy(t.conns[c])
    decreases |acts|
  {
    hide Inv, Next, CanStep, Late;
    if acts == [] {
      AskedBusy(s, c);
    } else {
      var d, a := acts[0].0, acts[0].1;
      NextConns(s, d, a);
      if Next(s, d, a).conns[c].faulty { PathFaulty(Next(s, d, a), acts[1..], t, c); }
      LateNext(s, d, a, c);
      NextKeeps(s, d, a);
      LateForever(Next(s, d, a), acts[1..], t, c);
    }
  }

  lemma AskedBusy(s: State, c: ConnId)
    requires Inv(s) && c in s.conns && Late(s.conns[c])
    ensures Busy(s.conns[c])
  {
    hide SharedInv, Local, Mapping;
    AskedLoad(s.conns[c]);
  }

  lemma SafeNext(s: State, d: ConnId, a: Step, c: ConnId)
    requires Inv(s) && CanStep(s, d, a) && c in s.conns && !AtRisk(s.conns[c]) && (d == c ==> Ordinary(a))
    requires !Next(s, d, a).conns[c].faulty
    ensures !AtRisk(Next(s, d, a).conns[c])
  {
    hide ConnInv, SharedInv, Enabled, Apply, AtRisk, Ordinary;
    if d == c { SafeStep(c, s.conns[c], s.sh, a); }
  }

  /** A command whose request is not at risk never loses it. */
  lemma {:induction false} SafeForever(s: State, acts: seq<Act>, t: State, c: ConnId)
    requires Inv(s) && c in s.conns && !AtRisk(s.conns[c]) && Path(s, acts, t)
    requires forall k :: 0 <= k < |acts| && acts[k].0 == c ==> Ordinary(acts[k].1)
    requires c in t.conns && !t.conns[c].faulty
    ensures !AtRisk(t.conns[c]) && !Deaf(t.conns[c])
    decreases |acts|
  {
    hide Inv, Next, CanStep, AtRisk, Ordinary;
    if acts == [] {
      DeafAtRisk(t.conns[c]);
    } else {
      var d, a := acts[0].0, acts[0].1;
      NextConns(s, d, a);
      if Next(s, d, a).conns[c].faulty { PathFaulty(Next(s, d, a), acts[1..], t, c); }
      SafeNext(s, d, a, c);
      NextKeeps(s, d, a);
      SafeForever(Next(s, d, a), acts[1..], t, c);
    }
  }

  lemma DeafAtRisk(cn: Conn)
    ensures Deaf(cn) ==> AtRisk(cn) && Late(cn)
  {
  }

  // ---- a client whose server thread has ended

  /** The client waits for an answer that nothing on its connection can cause. */
  predicate Hung(cn: Conn)
  {
    Ended(cn.sv) && cn.cl.stage.CWait? && cn.sv.sq == 0 && Pending(cn.cl) == []
  }

  lemma ExecHung(c: ConnId, cn: Conn, sh: Shared)
    requires Hung(cn) && CanExec(cn)
    ensures Hung(DoCExec(c, cn, sh).0)
  {
    hide Access, WriteBytes, Posts;
  }

  lemma FlushHung(cn: Conn, cq: seq<Wc>, w: Wc)
    requires Hung(cn) && !Wakes(w) && cq == cn.cl.cq + [w]
    ensures cn.cl.sem + Posts(cq) == []
  {
    PostsAppend(cn.cl.cq, w);
  }

  lemma AdapterHung(c: ConnId, cn: Conn, sh: Shared, a: Step)
    requires Content(cn) && Hung(cn) && CanAdapter(c, cn, sh, a)
    ensures Hung(DoAdapter(c, cn, sh, a).0)
  {
    hide DoCExec, Content, Posts;
    var r := DoAdapter(c, cn, sh, a).0;
    match a
    case CExec => ExecHung(c, cn, sh);
    case CComplete =>
      WaitsNoRead(cn);
      FlushHung(cn, r.cl.cq, Wc(OpOf(cn.cl.unacked[0]), true));
    case CPoll => LocalSteps.PollPending(cn);
    case Break =>
    case CFlushRecv => FlushHung(cn, r.cl.cq, Wc(Recv, false));
    case CFlushSend =>
      FlushHung(cn, r.cl.cq, Wc(OpOf(if cn.cl.unacked != [] then cn.cl.unacked[0] else cn.cl.sq[0]), false));
  }

  lemma WaitsNoRead(cn: Conn)
    requires Content(cn) && cn.cl.stage.CWait? && cn.cl.unacked != []
    ensures !cn.cl.unacked[0].WrRead?
  {
    hide GoodTrace, LastIssued, LastReplied, HandlerHas;
  }

  lemma ServerHung(c: ConnId, cn: Conn, sh: Shared, a: Step)
    requires Hung(cn) && CanServer(c, cn, sh, a)
    ensures Hung(DoServer(c, cn, sh, a).0)
  {
    hide PackResponse, HandlerView, Posts;
  }

  lemma HungStep(c: ConnId, cn: Conn, sh: Shared, a: Step)
    requires ConnInv(c, cn, sh) && Hung(cn) && Enabled(c, cn, sh, a)
    ensures var r := Apply(c, cn, sh, a).0; Hung(r) && r.cl.stage == cn.cl.stage
  {
    hide Shape, Content, Credits, CmdInv, Mapping, DoAdapter, DoServer, DoHandler,
      CanIssue, CanFinish, CanAdapter, CanServer, CanHandler;
    if Issues(a) {
      IssueIdle(c, cn, sh, a);
    } else if Finishes(a) {
      FinishNeedsUnit(c, cn, sh, a);
    } else if ClientAdapter(a) {
      AdapterHung(c, cn, sh, a);
      AdapterFrame(c, cn, sh, a);
    } else if Handlers(a) {
      HandlerInBody(c, cn, sh, a);
    } else {
      ServerHung(c, cn, sh, a);
      ServerQuiet(c, cn, sh, a);
    }
  }

  lemma HungNext(s: State, d: ConnId, a: Step, c: ConnId)
    requires Inv(s) && CanStep(s, d, a) && c in s.conns && Hung(s.conns[c])
    ensures var t := Next(s, d, a); c in t.conns && Hung(t.conns[c]) && t.conns[c].cl.stage == s.conns[c].cl.stage
  {
    hide ConnInv, SharedInv, Enabled, Apply, Hung;
    if d == c { HungStep(c, s.conns[c], s.sh, a); }
  }

  lemma DeafHangs(cn: Conn)
    requires Local(cn) && Deaf(cn)
    ensures Hung(cn)
  {
    hide Local;
    AskedLoad(cn);
  }

  /** A client whose request found the server's thread gone waits for ever, whatever fails
      and whatever any connection does: sem_wait has no timeout. */
  lemma {:induction false} DeafForever(run: seq<State>, i: nat, j: nat, c: ConnId)
    requires IsRun(run) && i <= j < |run| && c in run[i].conns && Deaf(run[i].conns[c])
    ensures c in run[j].conns && Hung(run[j].conns[c])
    ensures run[i].conns[c].cl.stage.CWait? && run[j].conns[c].cl.stage == run[i].conns[c].cl.stage
    decreases j
  {
    hide Initial, Next, CanStep, SharedInv, Local, Mapping, Hung, Deaf;
    if i < j {
      DeafForever(run, i, j - 1, c);
      RunInv(run, j - 1);
      assert OneStep(run[j - 1], run[j - 1 + 1]);
      var d, a :| CanStep(run[j - 1], d, a) && run[j] == Next(run[j - 1], d, a);
      HungNext(run[j - 1], d, a, c);
    } else {
      RunInv(run, i);
      DeafHangs(run[i].conns[c]);
      HungWaits(run[i].conns[c]);
    }
  }

  lemma HungWaits(cn: Conn)
    requires Hung(cn)
    ensures cn.cl.stage.CWait?
  {
  }
}
