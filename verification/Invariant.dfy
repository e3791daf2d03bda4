/** The inductive invariant of the transition system: one part for the shared state, one
    for each connection, and the rely condition under which a connection's part survives
    the steps of the others. */
module Invariant {
  import opened Wire
  import opened PoolModel
  import opened System

  function Count(b: bool): (n: nat) { if b then 1 else 0 }

  // ---- counting what is in flight on one connection

  /** The completions still in the queue that will post the semaphore. */
  function Posts(cq: seq<Wc>): (ops: seq<Op>)
  {
    if cq == [] then []
    else (if Wakes(cq[0]) then [cq[0].op] else []) + Posts(cq[1..])
  }

  lemma {:induction false} PostsAppend(cq: seq<Wc>, w: Wc)
    ensures Posts(cq + [w]) == Posts(cq) + (if Wakes(w) then [w.op] else [])
  {
    if cq == [] {
      assert cq + [w] == [w];
    } else {
      PostsAppend(cq[1..], w);
      assert (cq + [w])[1..] == cq[1..] + [w];
    }
  }

  function Arrivals(cq: seq<Wc>): (n: nat)
  {
    if cq == [] then 0 else Count(cq[0] == Wc(Recv, true)) + Arrivals(cq[1..])
  }

  lemma {:induction false} ArrivalsAppend(cq: seq<Wc>, w: Wc)
    ensures Arrivals(cq + [w]) == Arrivals(cq) + Count(w == Wc(Recv, true))
  {
    if cq == [] {
      assert cq + [w] == [w];
    } else {
      ArrivalsAppend(cq[1..], w);
      assert (cq + [w])[1..] == cq[1..] + [w];
    }
  }

  function Reads(u: seq<Wr>): (n: nat)
  {
    if u == [] then 0 else Count(u[0].WrRead?) + Reads(u[1..])
  }

  lemma {:induction false} ReadsAppend(u: seq<Wr>, w: Wr)
    ensures Reads(u + [w]) == Reads(u) + Count(w.WrRead?)
  {
    if u == [] {
      assert u + [w] == [w];
    } else {
      ReadsAppend(u[1..], w);
      assert (u + [w])[1..] == u[1..] + [w];
    }
  }

  /** Semaphore units present or certain to come, oldest first. */
  function Pending(cl: Client): (ops: seq<Op>) { cl.sem + Posts(cl.cq) }

  predicate EndsSend(sq: seq<Wr>) { sq != [] && sq[|sq| - 1].WrSend? }
  predicate EndsRead(sq: seq<Wr>) { sq != [] && sq[|sq| - 1].WrRead? }

  /** A handler is between taking a request and posting its answer. */
  predicate Active(st: SStage) { !st.SIdle? && !st.SSent? }

  predicate Waiting(st: CStage) { st.CWait? || st.CReadWait? }

  /** The one thing that may be under way on a connection, counted wherever it can be:
      request queued, request arrived, handler running, answer queued, READ queued, READ
      executed, semaphore posted or about to be. */
  function Load(cn: Conn): (n: nat)
  {
    Count(EndsSend(cn.cl.sq)) + Count(EndsRead(cn.cl.sq)) + Reads(cn.cl.unacked) + |Pending(cn.cl)|
    + Arrivals(cn.sv.cq) + Count(Active(cn.sv.stage)) + cn.sv.sq
  }

  /** The request has been delivered, or its answer unpacked: nothing is queued. */
  predicate Past(cn: Conn)
  {
    || Arrivals(cn.sv.cq) > 0 || Active(cn.sv.stage) || cn.sv.sq > 0
    || Pending(cn.cl) != [] || cn.cl.stage.CWoken? || cn.cl.stage.CMapDec?
  }

  /** The client is giving the mapping or the connection up. */
  predicate Leaving(st: CStage)
  {
    match st
    case CBegun(cmd) => cmd.Unmap? || cmd.Close?
    case CRecvd(cmd) => cmd.Unmap? || cmd.Close?
    case CPacked(cmd) => cmd.Unmap? || cmd.Close?
    case CWait(cmd) => cmd.Unmap? || cmd.Close?
    case CClosed => true
    case _ => false
  }

  /** A WRITE may be queued: the client is mapped, or it was when the WRITE was posted. */
  predicate MayWrite(cl: Client) { cl.mapped || cl.gaveUp || Leaving(cl.stage) }

  predicate Committing(st: CStage) { st.CWrote? || st == CPacked(Commit) || st == CWait(Commit) }

  /** Only the last queued request is not a WRITE. */
  predicate WritesFirst(sq: seq<Wr>) { forall i :: 0 <= i < |sq| - 1 ==> sq[i].WrWrite? }

  /** Every queued WRITE is to the region that the handle names. */
  predicate WritesOf(sq: seq<Wr>, mr: LocalMr)
  {
    forall i :: 0 <= i < |sq| && sq[i].WrWrite? ==> sq[i] == WrWrite(mr.rkey, mr.raddr, mr.len)
  }

  ghost predicate Shape(cn: Conn)
  {
    var cl := cn.cl;
    && Load(cn) <= Count(Waiting(cl.stage))
    && WritesFirst(cl.sq)
    && (!cl.gaveUp ==> WritesOf(cl.sq, cl.mr))
    && (Past(cn) ==> cl.sq == [])
    && (EndsRead(cl.sq) ==> |cl.sq| == 1)
    && (cl.sq != [] && cl.sq[0].WrWrite? ==> MayWrite(cl) && (!cn.faulty ==> Committing(cl.stage)))
    && (!cn.faulty ==> |cl.sq| <= 1 + Count(Waiting(cl.stage)))
  }

  // ---- what the buffers and the trace hold

  /** A response of the kind that answers the request. */
  predicate Answers(q: Request, p: Response)
  {
    match q
    case OpenReq => p.OpenRsp?
    case CloseReq => p.CloseRsp?
    case MapReq(_) => p.MapRsp?
    case UnmapReq(_, _) => p.UnmapRsp?
    case CommitReq(_, _) => p.CommitRsp?
    case UnknownReq(_) => false
  }

  /** Every answer the client unpacked is the one the server posted last, for the request
      the client issued just before it. */
  ghost predicate GoodTrace(tr: seq<Event>)
  {
    forall i :: 0 <= i < |tr| && tr[i].Got? ==>
      && i >= 2
      && tr[i - 1].Replied?
      && tr[i - 1].rsp == tr[i].rsp
      && tr[i - 2] == Issued(tr[i - 1].q)
      && Answers(tr[i - 1].q, tr[i].rsp)
  }

  ghost predicate LastIssued(tr: seq<Event>, q: Request)
  {
    tr != [] && tr[|tr| - 1] == Issued(q)
  }

  /** The last answer is to `q`, and `buf` holds it. */
  ghost predicate LastReplied(tr: seq<Event>, q: Request, want: U32, buf: Buffer)
  {
    && |tr| >= 2
    && tr[|tr| - 2] == Issued(q)
    && tr[|tr| - 1].Replied?
    && tr[|tr| - 1].q == q
    && Answers(q, tr[|tr| - 1].rsp)
    && UnpackResponse(want, buf) == Accepted(tr[|tr| - 1].rsp)
  }

  /** The running handler's locals come from the request `q`. */
  predicate HandlerHas(sv: Server, q: Request)
  {
    match sv.stage
    case SDispatched(op) => op == GetU32(sv.req, 0) && DecodeRequest(sv.req) == q
    case SDecoded(p, _) => p == q && !q.CloseReq? && !q.UnknownReq?
    case SOpenRead(_) => q == OpenReq
    case SBody(p, _) => p == q && (q.MapReq? || q.UnmapReq? || q.CommitReq?)
    case SMapLocked(p) => p == q && q.MapReq?
    case SMapDone(p, _) => p == q && q.MapReq?
    case SMmapped(p, _, _, _) => p == q && q.MapReq?
    case SUnreg(p, _) => p == q && q.UnmapReq?
    case SUnmapped(p, _) => p == q && q.UnmapReq?
    case SGiving(p) => p == q && q.UnmapReq?
    case SReply(p, rsp) => p == q && Answers(q, rsp)
    case SPacked(p, rsp) =>
      p == q && Answers(q, rsp) && UnpackResponse(ResponseOpcode(rsp), sv.rsp) == Accepted(rsp)
    case _ => false
  }

  ghost predicate Content(cn: Conn)
  {
    var cl, sv, tr := cn.cl, cn.sv, cn.trace;
    && GoodTrace(tr)
    && (cl.stage.CRecvd? ==> LastIssued(tr, ReqOf(cl.stage.cmd, cl.mr)))
    && (cl.stage.CWrote? ==> LastIssued(tr, ReqOf(Commit, cl.mr)))
    && (cl.stage.CPacked? ==>
          LastIssued(tr, ReqOf(cl.stage.cmd, cl.mr)) && DecodeRequest(cl.req) == ReqOf(cl.stage.cmd, cl.mr))
    && (cl.stage.CWait? ==>
          var q := ReqOf(cl.stage.cmd, cl.mr);
          && (EndsSend(cl.sq) ==> LastIssued(tr, q) && DecodeRequest(cl.req) == q)
          && (Arrivals(sv.cq) > 0 ==> LastIssued(tr, q) && DecodeRequest(sv.req) == q)
          && (Active(sv.stage) ==> LastIssued(tr, q) && HandlerHas(sv, q))
          && (sv.sq > 0 ==> LastReplied(tr, q, RspOpcode(cl.stage.cmd), sv.rsp))
          && (Pending(cl) != [] ==> Pending(cl) == [Recv] && LastReplied(tr, q, RspOpcode(cl.stage.cmd), cl.rsp)))
    && (cl.stage.CWoken? ==> LastReplied(tr, ReqOf(cl.stage.cmd, cl.mr), RspOpcode(cl.stage.cmd), cl.rsp))
    && (EndsRead(cl.sq) || Reads(cl.unacked) > 0 ==> cl.stage.CReadWait?)
    && (EndsSend(cl.sq) || Arrivals(sv.cq) > 0 || Active(sv.stage) || sv.sq > 0 ==> cl.stage.CWait?)
    && (cl.stage.CReadWait? && Pending(cl) != [] ==> Pending(cl) == [Read])
    && (EndsRead(cl.sq) ==> cl.sq[|cl.sq| - 1] == WrRead(cl.mr.rkey, cl.mr.raddr, cl.mr.len))
  }

  // ---- receive credits

  /** The handler holds the request buffer: it has not reposted its receive. */
  predicate Unposted(st: SStage) { st.SDispatched? || st.SDecoded? || st.SOpenRead? }

  /** The handler has reposted its receive and is doing the work of the request. */
  predicate InBody(st: SStage)
  {
    || st.SBody? || st.SMapLocked? || st.SMapDone? || st.SMmapped?
    || st.SUnreg? || st.SUnmapped? || st.SGiving?
  }

  /** Posted receives, arrived requests and a request not yet reposted, at the server. */
  function Credit(sv: Server): (n: nat) { sv.recvs + Arrivals(sv.cq) + Count(Unposted(sv.stage)) }

  /** The client has posted the receive of the running command and it is not used up. */
  predicate Expecting(cn: Conn)
  {
    || cn.cl.stage.CRecvd? || cn.cl.stage.CWrote? || cn.cl.stage.CPacked?
    || EndsSend(cn.cl.sq) || Arrivals(cn.sv.cq) > 0 || Active(cn.sv.stage) || cn.sv.sq > 0
  }

  predicate Closing(cn: Conn)
  {
    || (cn.cl.stage == CWait(Close) && !EndsSend(cn.cl.sq))
    || cn.cl.stage == CWoken(Close)
    || cn.cl.stage.CClosed?
  }

  predicate NoErrors(cq: seq<Wc>) { forall i :: 0 <= i < |cq| ==> cq[i].ok }

  ghost predicate Credits(cn: Conn)
  {
    && Credit(cn.sv) <= 1
    && (InBody(cn.sv.stage) ==> Credit(cn.sv) == 1)
    && (Expecting(cn) && !cn.broken ==> cn.cl.recvs >= 1)
    && cn.sv.polled <= |cn.sv.cq| && cn.sv.polled <= cn.sv.drained < BUDGET + BATCH
    && (!cn.faulty ==>
          && cn.cl.recvs == Count(Expecting(cn))
          && (!Closing(cn) ==> Credit(cn.sv) == 1)
          && (cn.broken ==> cn.cl.stage.CClosed?)
          && (cn.cl.stage.CClosed? || NoErrors(cn.cl.cq))
          && (Waiting(cn.cl.stage) ==> Load(cn) == 1))
  }

  /** What the flags and the local buffer are while a command runs. */
  predicate CmdOk(cl: Client, cmd: Cmd)
  {
    match cmd
    case Open => !cl.mapped && !cl.gaveUp
    case Close => !cl.mapped
    case Map(len) => !cl.mapped && !cl.gaveUp && cl.mr.len == len && |cl.mr.local| == len
    case Unmap => !cl.mapped && !cl.gaveUp
    case Commit => cl.mapped && !cl.gaveUp
  }

  predicate CmdInv(cl: Client)
  {
    && !(cl.gaveUp && cl.mapped)
    && match cl.stage
    case CIdle => true
    case CWrote => CmdOk(cl, Commit)
    case CBegun(cmd) => CmdOk(cl, cmd)
    case CRecvd(cmd) => CmdOk(cl, cmd)
    case CPacked(cmd) => CmdOk(cl, cmd)
    case CWait(cmd) => CmdOk(cl, cmd)
    case CWoken(cmd) => CmdOk(cl, cmd)
    case CMapDec => !cl.mapped && !cl.gaveUp && |cl.mr.local| == cl.mr.len
    case CReadWait => !cl.mapped && !cl.gaveUp && |cl.mr.local| == cl.mr.len
    case CClosed => !cl.mapped
  }

  /** The part of the invariant that only speaks of the connection itself. */
  ghost predicate Local(cn: Conn) { CmdInv(cn.cl) && Shape(cn) && Content(cn) && Credits(cn) }

  // ---- who holds what at the server

  ghost predicate NoMr(c: ConnId, sh: Shared)
  {
    forall k :: k in sh.mrs ==> sh.mrs[k].pd != c
  }

  /** The unit has no resource and no registration. */
  ghost predicate Unheld(c: ConnId, sh: Shared) { c !in sh.pool.now.owner && NoMr(c, sh) }

  ghost predicate Tagged(mem: Memory, c: ConnId, addr: nat, len: int)
  {
    forall a: nat :: addr <= a < addr + len ==> a in mem && mem[a].tag == c
  }

  /** The unit holds a resource mapped at `addr` for `len` bytes and registered, under
      `rkey` and nothing else, in the connection's protection domain. */
  ghost predicate Live(c: ConnId, sh: Shared, rkey: U32, addr: U64, len: int)
  {
    && c in sh.pool.now.owner
    && sh.pool.now.owner[c] in sh.fields
    && sh.fields[sh.pool.now.owner[c]] == Fields(addr, len, Some(rkey))
    && 0 < len < TWO31
    && rkey in sh.mrs
    && sh.mrs[rkey] == Mr(c, addr, len)
    && (forall k :: k in sh.mrs && sh.mrs[k].pd == c ==> k == rkey)
    && Tagged(sh.mem, c, addr, len)
  }

  ghost predicate LiveHandle(c: ConnId, sh: Shared, mr: LocalMr) { Live(c, sh, mr.rkey, mr.raddr, mr.len) }

  /** Before the server acts: open and map find nothing held, unmap finds the mapping it
      names. */
  ghost predicate Ready(c: ConnId, sh: Shared, cmd: Cmd, mr: LocalMr)
  {
    match cmd
    case Open | Map(_) => Unheld(c, sh)
    case Unmap => LiveHandle(c, sh, mr)
    case _ => true
  }

  /** After the server acted. A failed map leaves no registration behind; an unmap answers
      0 exactly when it gave the resource back. */
  ghost predicate Outcome(c: ConnId, sh: Shared, q: Request, p: Response)
  {
    match q
    case OpenReq => Unheld(c, sh)
    case MapReq(len) => p.MapRsp? && (NoMr(c, sh) || Live(c, sh, p.rkey, p.addr, len))
    case UnmapReq(_, _) => p.UnmapRsp? && (if p.ret == 0 then Unheld(c, sh) else c in sh.pool.now.owner)
    case _ => true
  }

  predicate Owns(c: ConnId, sh: Shared, r: ResId)
  {
    c in sh.pool.now.owner && sh.pool.now.owner[c] == r
  }

  /** While the handler runs. */
  ghost predicate HandlerMap(c: ConnId, sh: Shared, st: SStage, cmd: Cmd, mr: LocalMr)
  {
    match st
    case SDispatched(_) => Ready(c, sh, cmd, mr)
    case SDecoded(_, res) => Ready(c, sh, cmd, mr) && res == UnitRes(sh, c)
    case SOpenRead(_) => Ready(c, sh, cmd, mr)
    case SBody(_, res) => Ready(c, sh, cmd, mr) && res == UnitRes(sh, c)
    case SMapLocked(q) =>
      NoMr(c, sh) && sh.pool.lock.Taking? && sh.pool.lock.who == c
    case SMapDone(_, res) => NoMr(c, sh) && res == UnitRes(sh, c)
    case SMmapped(q, r, addr, ok) =>
      && NoMr(c, sh) && Owns(c, sh, r) && q.MapReq? && q.len < TWO31
      && r in sh.fields && sh.fields[r].addr == addr && sh.fields[r].mapLen == q.len
      && (ok ==> 0 < q.len && Tagged(sh.mem, c, addr, q.len))
      && (!ok ==> addr == 0)
    case SUnreg(q, r) => NoMr(c, sh) && Owns(c, sh, r) && q.UnmapReq? && Tagged(sh.mem, c, q.addr, q.len)
    case SUnmapped(_, r) => NoMr(c, sh) && Owns(c, sh, r)
    case SGiving(_) => NoMr(c, sh) && sh.pool.lock.Giving? && sh.pool.lock.who == c
    case SReply(q, p) => Outcome(c, sh, q, p)
    case SPacked(q, p) => Outcome(c, sh, q, p)
    case _ => true
  }

  function Region(sh: Shared, mr: LocalMr): (data: seq<Byte>) { ReadBytes(sh.mem, mr.raddr, mr.len) }

  ghost predicate LastOutcome(c: ConnId, sh: Shared, tr: seq<Event>)
  {
    tr != [] && tr[|tr| - 1].Replied? && Outcome(c, sh, tr[|tr| - 1].q, tr[|tr| - 1].rsp)
  }

  ghost predicate WaitMap(c: ConnId, cn: Conn, sh: Shared, cmd: Cmd)
  {
    var cl, sv := cn.cl, cn.sv;
    && (EndsSend(cl.sq) || Arrivals(sv.cq) > 0 ==> Ready(c, sh, cmd, cl.mr))
    && (Active(sv.stage) ==> HandlerMap(c, sh, sv.stage, cmd, cl.mr))
    && (sv.sq > 0 || Pending(cl) != [] ==> LastOutcome(c, sh, cn.trace))
  }

  ghost predicate ReadMap(c: ConnId, cn: Conn, sh: Shared)
  {
    var cl := cn.cl;
    && (NoMr(c, sh) || LiveHandle(c, sh, cl.mr))
    && (Reads(cl.unacked) > 0 || Pending(cl) != [] ==> LiveHandle(c, sh, cl.mr) && cl.mr.local == Region(sh, cl.mr))
  }

  ghost predicate StageMap(c: ConnId, cn: Conn, sh: Shared)
  {
    var cl := cn.cl;
    match cl.stage
    case CIdle => !cl.mapped && !cl.gaveUp ==> Unheld(c, sh)
    case CClosed => true
    case CBegun(cmd) => Ready(c, sh, cmd, cl.mr)
    case CRecvd(cmd) => Ready(c, sh, cmd, cl.mr)
    case CWrote => Written(cn, sh)
    case CPacked(cmd) => Ready(c, sh, cmd, cl.mr) && (cmd.Commit? ==> Written(cn, sh))
    case CWait(cmd) => WaitMap(c, cn, sh, cmd) && (cmd.Commit? ==> Written(cn, sh))
    case CWoken(cmd) => LastOutcome(c, sh, cn.trace) && (cmd.Commit? ==> Written(cn, sh))
    case CMapDec => ReadMap(c, cn, sh)
    case CReadWait => ReadMap(c, cn, sh)
  }

  /** The part of the invariant that ties the connection to the shared state. */
  ghost predicate Mapping(c: ConnId, cn: Conn, sh: Shared)
  {
    && (Holds(sh.pool, c) <==> InSection(cn.sv))
    && (cn.cl.mapped ==> LiveHandle(c, sh, cn.cl.mr) && |cn.cl.mr.local| == cn.cl.mr.len)
    && StageMap(c, cn, sh)
  }

  /** During commit: the region equals the buffer, or the WRITE is still queued, or the
      queue pair broke before the request was delivered. */
  ghost predicate Written(cn: Conn, sh: Shared)
  {
    || Region(sh, cn.cl.mr) == cn.cl.mr.local
    || (cn.cl.sq != [] && cn.cl.sq[0].WrWrite?)
    || (cn.broken && !Past(cn))
  }

  ghost predicate ConnInv(c: ConnId, cn: Conn, sh: Shared) { Local(cn) && Mapping(c, cn, sh) }

  // ---- the shared state

  /** Every registration lies in memory that its own connection mapped. */
  ghost predicate MrSound(sh: Shared)
  {
    forall k :: k in sh.mrs ==> Tagged(sh.mem, sh.mrs[k].pd, sh.mrs[k].addr, sh.mrs[k].len)
  }

  ghost predicate SharedInv(sh: Shared)
  {
    && PoolInv(sh.sizes, sh.pool)
    && SumSet(sh.sizes, sh.sizes.Keys) < TWO31
    && sh.fields.Keys == sh.sizes.Keys
    && MrSound(sh)
    && forall a :: a in sh.mem ==> LOWEST <= a
  }

  ghost predicate Inv(s: State)
  {
    && SharedInv(s.sh)
    && (!s.sh.pool.lock.Unlocked? ==> s.sh.pool.lock.who in s.conns)
    && forall c :: c in s.conns ==> ConnInv(c, s.conns[c], s.sh)
  }

  // ---- rely and guarantee

  /** What connection d relies on: a step of another connection leaves d's resource, its
      fields, d's registrations, every byte d mapped, and a critical section that d is in,
      exactly as they were. */
  ghost predicate Stable(d: ConnId, sh: Shared, sh': Shared)
  {
    && sh'.sizes == sh.sizes
    && UnitRes(sh', d) == UnitRes(sh, d)
    && (d in sh.pool.now.owner && sh.pool.now.owner[d] in sh.fields ==>
          sh.pool.now.owner[d] in sh'.fields && sh'.fields[sh.pool.now.owner[d]] == sh.fields[sh.pool.now.owner[d]])
    && (forall k :: k in sh.mrs && sh.mrs[k].pd == d ==> k in sh'.mrs && sh'.mrs[k] == sh.mrs[k])
    && (forall k :: k in sh'.mrs && sh'.mrs[k].pd == d ==> k in sh.mrs && sh.mrs[k] == sh'.mrs[k])
    && (forall a :: a in sh.mem && sh.mem[a].tag == d ==> a in sh'.mem && sh'.mem[a] == sh.mem[a])
    && (Holds(sh.pool, d) <==> Holds(sh'.pool, d))
    && (Holds(sh.pool, d) ==> sh'.pool == sh.pool)
  }

  lemma LiveStable(d: ConnId, sh: Shared, sh': Shared, rkey: U32, addr: U64, len: int)
    requires Stable(d, sh, sh')
    ensures Live(d, sh, rkey, addr, len) ==> Live(d, sh', rkey, addr, len)
  {
  }

  lemma OutcomeStable(d: ConnId, sh: Shared, sh': Shared, q: Request, p: Response)
    requires Stable(d, sh, sh')
    ensures Outcome(d, sh, q, p) ==> Outcome(d, sh', q, p)
  {
    if q.MapReq? && p.MapRsp? { LiveStable(d, sh, sh', p.rkey, p.addr, q.len); }
  }

  lemma HandlerStable(d: ConnId, sh: Shared, sh': Shared, st: SStage, cmd: Cmd, mr: LocalMr)
    requires Stable(d, sh, sh')
    ensures HandlerMap(d, sh, st, cmd, mr) ==> HandlerMap(d, sh', st, cmd, mr)
  {
    LiveStable(d, sh, sh', mr.rkey, mr.raddr, mr.len);
    match st
    case SReply(q, p) => OutcomeStable(d, sh, sh', q, p);
    case SPacked(q, p) => OutcomeStable(d, sh, sh', q, p);
    case _ =>
  }

  /** What a connection sees of its region does not change either. */
  lemma RegionStable(d: ConnId, sh: Shared, sh': Shared, mr: LocalMr)
    requires Stable(d, sh, sh') && LiveHandle(d, sh, mr)
    ensures Region(sh', mr) == Region(sh, mr)
  {
    var r, r' := Region(sh, mr), Region(sh', mr);
    forall i | 0 <= i < |r| ensures r'[i] == r[i] {
      var a: nat := mr.raddr + i;
      assert a in sh.mem && sh.mem[a].tag == d;
    }
  }

  lemma ReadyStable(d: ConnId, sh: Shared, sh': Shared, cmd: Cmd, mr: LocalMr)
    requires Stable(d, sh, sh')
    ensures Ready(d, sh, cmd, mr) ==> Ready(d, sh', cmd, mr)
  {
    LiveStable(d, sh, sh', mr.rkey, mr.raddr, mr.len);
  }

  lemma WaitStable(d: ConnId, cn: Conn, sh: Shared, sh': Shared, cmd: Cmd)
    requires Stable(d, sh, sh') && WaitMap(d, cn, sh, cmd)
    ensures WaitMap(d, cn, sh', cmd)
  {
    ReadyStable(d, sh, sh', cmd, cn.cl.mr);
    HandlerStable(d, sh, sh', cn.sv.stage, cmd, cn.cl.mr);
    LastStable(d, sh, sh', cn.trace);
  }

  lemma LastStable(d: ConnId, sh: Shared, sh': Shared, tr: seq<Event>)
    requires Stable(d, sh, sh')
    ensures LastOutcome(d, sh, tr) ==> LastOutcome(d, sh', tr)
  {
    if tr != [] && tr[|tr| - 1].Replied? { OutcomeStable(d, sh, sh', tr[|tr| - 1].q, tr[|tr| - 1].rsp); }
  }

  lemma StageStable(d: ConnId, cn: Conn, sh: Shared, sh': Shared)
    requires Stable(d, sh, sh') && CmdInv(cn.cl) && StageMap(d, cn, sh)
    requires cn.cl.mapped ==> LiveHandle(d, sh, cn.cl.mr)
    ensures StageMap(d, cn, sh')
  {
    var cl := cn.cl;
    LiveStable(d, sh, sh', cl.mr.rkey, cl.mr.raddr, cl.mr.len);
    if LiveHandle(d, sh, cl.mr) { RegionStable(d, sh, sh', cl.mr); }
    match cl.stage
    case CBegun(cmd) => ReadyStable(d, sh, sh', cmd, cl.mr);
    case CRecvd(cmd) => ReadyStable(d, sh, sh', cmd, cl.mr);
    case CPacked(cmd) => ReadyStable(d, sh, sh', cmd, cl.mr);
    case CWait(cmd) => WaitStable(d, cn, sh, sh', cmd);
    case CWoken(cmd) => LastStable(d, sh, sh', cn.trace);
    case _ =>
  }

  /** A connection's invariant survives every stable change of the shared state. */
  lemma Survives(d: ConnId, cn: Conn, sh: Shared, sh': Shared)
    requires CmdInv(cn.cl) && Mapping(d, cn, sh) && Stable(d, sh, sh')
    ensures Mapping(d, cn, sh')
  {
    LiveStable(d, sh, sh', cn.cl.mr.rkey, cn.cl.mr.raddr, cn.cl.mr.len);
    StageStable(d, cn, sh, sh');
  }
}
