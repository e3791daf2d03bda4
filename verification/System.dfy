/** One transition system for rpmem: any number of client/server connections over
    reliable queue pairs, one server memory, one registration table, one resource pool.
    A step is one store, one post, one completion or one system call; every choice of
    the environment (a failing post, the address mmap picks, the garbage left in an
    uninitialised variable) is a parameter of the step. */
module System {
  import opened Wire
  import opened PoolModel

  // ---- queue-pair and memory vocabulary

  /** Work requests on the client's send queue. A send carries no payload: the adapter
      reads the request buffer when it executes the request. */
  datatype Wr =
    | WrSend
    | WrRead(rkey: U32, addr: U64, len: Len)
    | WrWrite(rkey: U32, addr: U64, len: Len)

  datatype Op = Recv | Send | Read | Write

  datatype Wc = Wc(op: Op, ok: bool)

  /** max_send_wr and max_recv_wr of the client's queue pair. */
  const SLOTS := 4

  /** The drain loop polls up to BATCH completions at a time and stops polling once it has
      polled BUDGET of them. */
  const BATCH := 16
  const BUDGET := 64

  /** A byte of server memory, tagged with the connection whose mmap created it. No
      step reads the tag. */
  datatype Cell = Cell(tag: ConnId, val: Byte)

  type Memory = map<nat, Cell>

  /** A registration with remote access, in the protection domain of one connection. */
  datatype Mr = Mr(pd: ConnId, addr: U64, len: Len)

  /** The fields of struct rpmem_resource that the handlers write. */
  datatype Fields = Fields(addr: U64, mapLen: int, mr: Option<U32>)

  datatype Shared = Shared(
    sizes: Sizes,
    pool: Pool,
    fields: map<ResId, Fields>,
    mrs: map<U32, Mr>,
    mem: Memory)

  // ---- the client side of a connection

  datatype Cmd = Open | Close | Map(len: Len) | Unmap | Commit

  /** Where the client thread is inside rpmem_open/close/map/unmap/commit. */
  datatype CStage =
    | CIdle
    | CBegun(cmd: Cmd)   // call entered, receive not yet posted
    | CRecvd(cmd: Cmd)   // receive posted
    | CWrote             // commit only: RDMA WRITE posted
    | CPacked(cmd: Cmd)  // request packed
    | CWait(cmd: Cmd)    // request posted, waiting on sem_command
    | CWoken(cmd: Cmd)   // semaphore taken, response not yet unpacked
    | CMapDec            // map only: rkey and address unpacked
    | CReadWait          // map only: RDMA READ posted, waiting on sem_command
    | CClosed

  /** struct priv_rpmem_mr: the local buffer and the remote handle. */
  datatype LocalMr = LocalMr(local: seq<Byte>, len: Len, rkey: U32, raddr: U64)

  /** `sem` is the semaphore sem_command: its value is the length, each unit remembering
      the completion that posted it. `gaveUp` is set by a failed unmap and by a failed post
      of the READ of a map; from then on the application only closes. */
  datatype Client = Client(
    stage: CStage,
    req: Buffer,
    rsp: Buffer,
    recvs: nat,
    sq: seq<Wr>,
    unacked: seq<Wr>,
    cq: seq<Wc>,
    sem: seq<Op>,
    mr: LocalMr,
    mapped: bool,
    gaveUp: bool)

  // ---- the server side of a connection

  /** Where the completion thread of a unit is. The constructor arguments are the
      handler's local variables. */
  datatype SStage =
    | SIdle
    | SDispatched(op: U32)
    | SDecoded(q: Request, res: Option<ResId>)
    | SOpenRead(size: S32)
    | SBody(q: Request, res: Option<ResId>)
    | SMapLocked(q: Request)
    | SMapDone(q: Request, res: Option<ResId>)
    | SMmapped(q: Request, r: ResId, addr: U64, ok: bool)
    | SUnreg(q: Request, r: ResId)
    | SUnmapped(q: Request, r: ResId)
    | SGiving(q: Request)
    | SReply(q: Request, rsp: Response)
    | SPacked(q: Request, rsp: Response)
    | SSent

  /** `cq` holds the completions not yet handled, of which the first `polled` have been
      polled into the loop's array; `drained` counts the completions polled since a poll
      last found the queue empty. */
  datatype Server = Server(
    stage: SStage,
    req: Buffer,
    rsp: Buffer,
    recvs: nat,
    sq: nat,
    unacked: nat,
    cq: seq<Wc>,
    polled: nat,
    drained: nat)

  /** What an observer of one connection sees: the client posting the receive of a
      command, the server posting its answer together with the request its handler acted
      on, and the client unpacking an answer. */
  datatype Event =
    | Issued(q: Request)
    | Replied(q: Request, rsp: Response)
    | Got(rsp: Response)

  /** `broken`: the queue pair is in error. `faulty`: some post failed, some completion
      failed or the queue pair broke; it never becomes false again. */
  datatype Conn = Conn(cl: Client, sv: Server, broken: bool, faulty: bool, trace: seq<Event>)

  datatype State = State(conns: map<ConnId, Conn>, sh: Shared)

  // ---- steps

  datatype Step =
    // client thread
    | Begin(cmd: Cmd, alloc: bool)
    | CPostRecv(ok: bool)
    | CPostWrite(ok: bool)
    | CPack
    | CPostSend(ok: bool)
    | CWake
    | CUnpack
    | CPostRead(ok: bool)
    | CWakeRead
    | AppWrite(data: seq<Byte>)
    // client adapter and client completion thread
    | CExec
    | CComplete
    | CPoll
    // server completion thread
    | SPoll(n: nat)
    | SPollEmpty
    | SHandle
    | SDecode
    | SReadFree
    | SRepost(ok: bool, rkey: U32, addr: U64)
    | SLock
    | SStore
    | SUnlock
    | SCheck(rkey: U32, addr: U64)
    | SMmap(ok: bool, addr: U64, data: seq<Byte>)
    | SRegMr(ok: bool, rkey: U32)
    | SDereg
    | SMunmap(ok: bool)
    | SMsync(ok: bool)
    | SPack
    | SPostSend(ok: bool)
    | SReturn
    // server adapter
    | SDeliver
    | SAck
    // failures
    | Break
    | CFlushRecv
    | CFlushSend
    | SError(op: Op)

  // ---- memory

  /** mmap never returns an address below this; munmap(NULL, len) therefore hits nothing. */
  const LOWEST: int := TWO31

  predicate Fresh(mem: Memory, addr: int, len: int)
  {
    forall a :: a in mem ==> !(addr <= a < addr + len)
  }

  predicate InRange(a: int, addr: int, len: int) { addr <= a < addr + len }

  function MapBytes(mem: Memory, c: ConnId, addr: nat, data: seq<Byte>): (m: Memory)
  {
    mem + map a: nat | addr <= a < addr + |data| && InRange(a, addr, |data|) :: Cell(c, data[a - addr])
  }

  function UnmapBytes(mem: Memory, addr: int, len: int): (m: Memory)
  {
    map a | a in mem && !(addr <= a < addr + len) :: mem[a]
  }

  predicate Mapped(mem: Memory, addr: nat, len: int)
  {
    forall a: nat :: addr <= a < addr + len ==> a in mem
  }

  function WriteBytes(mem: Memory, addr: nat, data: seq<Byte>): (m: Memory)
  {
    map a | a in mem :: if addr <= a < addr + |data| then Cell(mem[a].tag, data[a - addr]) else mem[a]
  }

  function ByteAt(mem: Memory, a: nat): (b: Byte) { if a in mem then mem[a].val else 0 }

  function ReadBytes(mem: Memory, addr: nat, len: nat): (data: seq<Byte>)
    ensures |data| == len
    ensures forall i :: 0 <= i < len ==> data[i] == ByteAt(mem, addr + i)
  {
    seq<Byte>(len, i requires 0 <= i < len => ByteAt(mem, addr + i))
  }

  /** The adapter's check of a remote access: a live registration under this key, in the
      protection domain of this connection, that covers the range. */
  predicate Access(sh: Shared, c: ConnId, rkey: U32, addr: int, len: int)
  {
    && rkey in sh.mrs
    && sh.mrs[rkey].pd == c
    && sh.mrs[rkey].addr <= addr
    && addr + len <= sh.mrs[rkey].addr + sh.mrs[rkey].len
  }

  // ---- requests and responses of a command

  function ReqOf(cmd: Cmd, mr: LocalMr): (q: Request)
  {
    match cmd
    case Open => OpenReq
    case Close => CloseReq
    case Map(len) => MapReq(len)
    case Unmap => UnmapReq(mr.len, mr.raddr)
    case Commit => CommitReq(mr.len, mr.raddr)
  }

  function RspOpcode(cmd: Cmd): (op: U32)
  {
    match cmd
    case Open => OPEN_RSP
    case Close => CLOSE_RSP
    case Map(_) => MAP_RSP
    case Unmap => UNMAP_RSP
    case Commit => COMMIT_RSP
  }

  function Zeros(n: nat): (s: seq<Byte>)
    ensures |s| == n
  {
    seq(n, _ => 0)
  }

  const NO_MR := LocalMr([], 0, 0, 0)

  /** The semaphore rule of rpmem_handle_wc (rpmem.c): only a successful receive or RDMA
      READ posts. */
  predicate Wakes(w: Wc) { w.ok && (w.op == Recv || w.op == Read) }

  function OpOf(w: Wr): (op: Op)
  {
    match w
    case WrSend => Send
    case WrRead(_, _, _) => Read
    case WrWrite(_, _, _) => Write
  }

  function AsInt(v: int): (r: S32) { ToS32(v % TWO32) }

  function UnitRes(sh: Shared, c: ConnId): (r: Option<ResId>)
  {
    if c in sh.pool.now.owner then Some(sh.pool.now.owner[c]) else None
  }

  // ---- client thread

  /** The cleanup labels of a failing command. Open and close end the connection; map and
      unmap drop the local buffer; commit keeps it. An unmap that failed leaves the server
      holding the mapping; a commit whose send failed leaves its WRITE queued. */
  function FailCommand(cn: Conn, cmd: Cmd): (r: Conn)
  {
    var cl := cn.cl;
    match cmd
    case Open | Close => cn.(cl := cl.(stage := CClosed), broken := true, faulty := true)
    case Map(_) =>
      cn.(cl := cl.(stage := CIdle, mr := cl.mr.(local := [], len := 0)), faulty := true)
    case Unmap => cn.(cl := cl.(stage := CIdle, gaveUp := true, mr := NO_MR), faulty := true)
    case Commit => cn.(cl := cl.(stage := CIdle), faulty := true)
  }

  predicate CanBegin(cl: Client, cmd: Cmd)
  {
    && cl.stage.CIdle?
    && match cmd
       case Open => false
       case Close => true
       case Map(_) => !cl.mapped && !cl.gaveUp
       case Unmap | Commit => cl.mapped
  }

  function DoBegin(cn: Conn, cmd: Cmd, alloc: bool): (r: Conn)
  {
    var cl := cn.cl;
    match cmd
    case Map(len) =>
      if alloc then cn.(cl := cl.(stage := CBegun(cmd), mr := cl.mr.(local := Zeros(len), len := len)))
      else cn.(cl := cl.(mr := cl.mr.(local := [], len := 0)))
    case Unmap | Close => cn.(cl := cl.(stage := CBegun(cmd), mapped := false))
    case _ => cn.(cl := cl.(stage := CBegun(cmd)))
  }

  function RecvsIn(cq: seq<Wc>): (n: nat)
    ensures n <= |cq|
  {
    if cq == [] then 0 else (if cq[0].op == Recv then 1 else 0) + RecvsIn(cq[1..])
  }

  /** A work request occupies its slot until its completion has been polled. */
  function RecvSlots(cl: Client): (n: nat) { cl.recvs + RecvsIn(cl.cq) }

  function SendSlots(cl: Client): (n: nat) { |cl.sq| + |cl.unacked| + |cl.cq| - RecvsIn(cl.cq) }

  /** A post can fail at any time, and must fail when all slots are taken. */
  predicate RecvRoom(cl: Client, ok: bool) { ok ==> RecvSlots(cl) < SLOTS }

  predicate SendRoom(cl: Client, ok: bool) { ok ==> SendSlots(cl) < SLOTS }

  /** rpmem_post_recv on the response buffer: zero it, then post it. */
  function DoCPostRecv(cn: Conn, ok: bool): (r: Conn)
    requires cn.cl.stage.CBegun?
  {
    var cmd := cn.cl.stage.cmd;
    var cl := cn.cl.(rsp := Zeroed());
    if ok then
      cn.(cl := cl.(recvs := cl.recvs + 1, stage := CRecvd(cmd)),
          trace := cn.trace + [Issued(ReqOf(cmd, cl.mr))])
    else FailCommand(cn.(cl := cl), cmd)
  }

  function DoCPostWrite(cn: Conn, ok: bool): (r: Conn)
  {
    var cl := cn.cl;
    if ok then cn.(cl := cl.(sq := cl.sq + [WrWrite(cl.mr.rkey, cl.mr.raddr, cl.mr.len)], stage := CWrote))
    else FailCommand(cn, Commit)
  }

  predicate CanPack(cl: Client) { cl.stage.CWrote? || (cl.stage.CRecvd? && !cl.stage.cmd.Commit?) }

  function PackCmd(cl: Client): (cmd: Cmd)
    requires CanPack(cl)
  {
    if cl.stage.CWrote? then Commit else cl.stage.cmd
  }

  function DoCPack(cn: Conn): (r: Conn)
    requires CanPack(cn.cl)
  {
    var cl := cn.cl;
    var cmd := PackCmd(cl);
    cn.(cl := cl.(req := PackRequest(cl.req, ReqOf(cmd, cl.mr)), stage := CPacked(cmd)))
  }

  function DoCPostSend(cn: Conn, ok: bool): (r: Conn)
    requires cn.cl.stage.CPacked?
  {
    var cl := cn.cl;
    if ok then cn.(cl := cl.(sq := cl.sq + [WrSend], stage := CWait(cl.stage.cmd)))
    else FailCommand(cn, cl.stage.cmd)
  }

  function DoCWake(cn: Conn): (r: Conn)
    requires cn.cl.stage.CWait? && cn.cl.sem != []
  {
    cn.(cl := cn.cl.(sem := cn.cl.sem[1..], stage := CWoken(cn.cl.stage.cmd)))
  }

  /** Unpack the response and finish the command, except map, which goes on to read. */
  function DoCUnpack(cn: Conn): (r: Conn)
    requires cn.cl.stage.CWoken?
  {
    var cl := cn.cl;
    var cmd := cl.stage.cmd;
    match UnpackResponse(RspOpcode(cmd), cl.rsp)
    case Rejected => FailCommand(cn, cmd)
    case Accepted(rsp) =>
      var got := cn.(trace := cn.trace + [Got(rsp)]);
      match rsp
      case OpenRsp(_) => got.(cl := cl.(stage := CIdle))
      case CloseRsp(_) => got.(cl := cl.(stage := CClosed), broken := true)
      case MapRsp(rkey, addr) => got.(cl := cl.(stage := CMapDec, mr := cl.mr.(rkey := rkey, raddr := addr)))
      case UnmapRsp(ret) => got.(cl := cl.(stage := CIdle, mr := NO_MR, gaveUp := cl.gaveUp || ret != 0))
      case CommitRsp(_) => got.(cl := cl.(stage := CIdle))
  }

  function DoCPostRead(cn: Conn, ok: bool): (r: Conn)
  {
    var cl := cn.cl;
    if ok then cn.(cl := cl.(sq := cl.sq + [WrRead(cl.mr.rkey, cl.mr.raddr, cl.mr.len)], stage := CReadWait))
    else cn.(cl := cl.(stage := CIdle, gaveUp := true, mr := NO_MR), faulty := true)
  }

  /** rpmem_map returns its buffer. */
  function DoCWakeRead(cn: Conn): (r: Conn)
    requires cn.cl.sem != []
  {
    cn.(cl := cn.cl.(sem := cn.cl.sem[1..], stage := CIdle, mapped := true))
  }

  // ---- client adapter and completion thread

  predicate CanExec(cn: Conn)
  {
    && !cn.broken
    && cn.cl.sq != []
    && (cn.cl.sq[0].WrSend? ==> cn.sv.recvs > 0)
  }

  /** The adapter executes the head of the send queue: it delivers the request buffer as
      it is now, or performs the RDMA access. A refused access breaks the queue pair. */
  function DoCExec(c: ConnId, cn: Conn, sh: Shared): (r: (Conn, Shared))
    requires CanExec(cn)
  {
    var cl, sv := cn.cl, cn.sv;
    var done := cl.(sq := cl.sq[1..], unacked := cl.unacked + [cl.sq[0]]);
    match cl.sq[0]
    case WrSend =>
      (cn.(cl := done, sv := sv.(req := cl.req, recvs := sv.recvs - 1, cq := sv.cq + [Wc(Recv, true)])), sh)
    case WrWrite(rkey, addr, len) =>
      if Access(sh, c, rkey, addr, len) && |cl.mr.local| == len then
        (cn.(cl := done), sh.(mem := WriteBytes(sh.mem, addr, cl.mr.local)))
      else (cn.(broken := true, faulty := true), sh)
    case WrRead(rkey, addr, len) =>
      if Access(sh, c, rkey, addr, len) && |cl.mr.local| == len then
        (cn.(cl := done.(mr := cl.mr.(local := ReadBytes(sh.mem, addr, len)))), sh)
      else (cn.(broken := true, faulty := true), sh)
  }

  function DoCComplete(cn: Conn): (r: Conn)
    requires cn.cl.unacked != []
  {
    var cl := cn.cl;
    cn.(cl := cl.(unacked := cl.unacked[1..], cq := cl.cq + [Wc(OpOf(cl.unacked[0]), true)]))
  }

  function DoCPoll(cn: Conn): (r: Conn)
    requires cn.cl.cq != []
  {
    var cl := cn.cl;
    cn.(cl := cl.(cq := cl.cq[1..], sem := if Wakes(cl.cq[0]) then cl.sem + [cl.cq[0].op] else cl.sem))
  }

  /** A broken queue pair completes what is left of its work requests with errors. */
  predicate CanFlushSend(cl: Client) { cl.unacked != [] || cl.sq != [] }

  function DoCFlushSend(cn: Conn): (r: Conn)
    requires CanFlushSend(cn.cl)
  {
    var cl := cn.cl;
    if cl.unacked != [] then
      cn.(cl := cl.(unacked := cl.unacked[1..], cq := cl.cq + [Wc(OpOf(cl.unacked[0]), false)]))
    else cn.(cl := cl.(sq := cl.sq[1..], cq := cl.cq + [Wc(OpOf(cl.sq[0]), false)]))
  }

  function DoCFlushRecv(cn: Conn): (r: Conn)
    requires cn.cl.recvs > 0
  {
    cn.(cl := cn.cl.(recvs := cn.cl.recvs - 1, cq := cn.cl.cq + [Wc(Recv, false)]))
  }

  // ---- server completion thread

  /** The thread is between two polls of its drain loop, and polls again. */
  predicate Polling(sv: Server) { sv.stage.SIdle? && sv.polled == 0 && sv.drained < BUDGET }

  /** Leaving the loop on its budget makes cq_event_handler report an error, on which the
      thread exits. */
  predicate Ended(sv: Server) { sv.stage.SIdle? && sv.polled == 0 && sv.drained >= BUDGET }

  predicate CanPoll(sv: Server, n: nat) { Polling(sv) && 1 <= n <= BATCH && n <= |sv.cq| }

  function DoSPoll(cn: Conn, n: nat): (r: Conn)
  {
    cn.(sv := cn.sv.(polled := n, drained := cn.sv.drained + n))
  }

  /** The loop ends, and the thread goes back to wait for an event. */
  predicate CanPollEmpty(sv: Server) { Polling(sv) && sv.cq == [] && sv.drained > 0 }

  predicate CanHandle(sv: Server) { sv.stage.SIdle? && 0 < sv.polled <= |sv.cq| }

  function DoSHandle(cn: Conn): (r: Conn)
    requires CanHandle(cn.sv)
  {
    var sv := cn.sv;
    cn.(sv := sv.(cq := sv.cq[1..],
                  polled := sv.polled - 1,
                  stage := if sv.cq[0] == Wc(Recv, true) then SDispatched(GetU32(sv.req, 0)) else SIdle))
  }

  /** The handler picked by the opcode loads its locals from the request buffer. Close
      reposts no receive; an unknown opcode is only logged. */
  function DoSDecode(c: ConnId, cn: Conn, sh: Shared): (r: Conn)
    requires cn.sv.stage.SDispatched?
  {
    var q := HandlerView(cn.sv.stage.op, cn.sv.req);
    cn.(sv := cn.sv.(stage :=
      match q
      case CloseReq => SReply(q, CloseRsp(0))
      case UnknownReq(_) => SSent
      case _ => SDecoded(q, UnitRes(sh, c))))
  }

  predicate CanRepost(sv: Server)
  {
    || sv.stage.SOpenRead?
    || (sv.stage.SDecoded? && (sv.stage.q.MapReq? || sv.stage.q.UnmapReq? || sv.stage.q.CommitReq?))
  }

  /** rpmem_post_recv on the request buffer. When it fails the handler jumps to its
      reply; `rkey` and `addr` are the values map then sends uninitialised. */
  function DoSRepost(cn: Conn, ok: bool, rkey: U32, addr: U64): (r: Conn)
    requires CanRepost(cn.sv)
  {
    var sv := cn.sv;
    var next :=
      match sv.stage
      case SOpenRead(size) => SReply(OpenReq, OpenRsp(size))
      case SDecoded(q, res) =>
        if ok then SBody(q, res)
        else match q
             case MapReq(_) => SReply(q, MapRsp(rkey, addr))
             case UnmapReq(_, _) => SReply(q, UnmapRsp(-1))
             case _ => SReply(q, CommitRsp(-1));
    cn.(sv := sv.(req := Zeroed(), recvs := if ok then sv.recvs + 1 else sv.recvs, stage := next),
        faulty := cn.faulty || !ok)
  }

  predicate CanLock(cn: Conn, sh: Shared)
  {
    && sh.pool.lock.Unlocked?
    && (cn.sv.stage.SUnmapped? || (cn.sv.stage.SBody? && cn.sv.stage.q.MapReq?))
  }

  function DoSLock(c: ConnId, cn: Conn, sh: Shared): (r: (Conn, Shared))
    requires CanLock(cn, sh)
  {
    var sv := cn.sv;
    match sv.stage
    case SBody(q, _) =>
      (cn.(sv := sv.(stage := SMapLocked(q))), sh.(pool := LockToTake(sh.pool, c, q.len)))
    case SUnmapped(q, res) =>
      (cn.(sv := sv.(stage := SGiving(q))), sh.(pool := LockToGive(sh.pool, c, res)))
  }

  predicate InSection(sv: Server) { sv.stage.SMapLocked? || sv.stage.SGiving? }

  predicate CanUnlock(c: ConnId, cn: Conn, sh: Shared)
  {
    && Holds(sh.pool, c)
    && SectionDone(sh.pool)
    && (cn.sv.stage.SMapLocked? ==> sh.pool.lock.Taking?)
    && InSection(cn.sv)
  }

  function DoSUnlock(c: ConnId, cn: Conn, sh: Shared): (r: (Conn, Shared))
    requires CanUnlock(c, cn, sh)
  {
    var sv := cn.sv;
    var sh' := sh.(pool := PoolModel.Unlock(sh.pool));
    match sv.stage
    case SMapLocked(q) => (cn.(sv := sv.(stage := SMapDone(q, sh.pool.lock.res))), sh')
    case SGiving(q) => (cn.(sv := sv.(stage := SReply(q, UnmapRsp(0)))), sh')
  }

  predicate CanMmap(c: ConnId, cn: Conn, sh: Shared, ok: bool, addr: U64, data: seq<Byte>)
  {
    && cn.sv.stage.SMapDone?
    && c in sh.pool.now.owner
    && cn.sv.stage.q.MapReq?
    && cn.sv.stage.res.Some?
    && var len := cn.sv.stage.q.len;
       if ok then
         0 < len && LOWEST <= addr && addr + len <= TWO64 && |data| == len && Fresh(sh.mem, addr, len)
       else addr == 0
  }

  /** mmap, and the stores of its result into the resource the loop variable names. */
  function DoSMmap(c: ConnId, cn: Conn, sh: Shared, ok: bool, addr: U64, data: seq<Byte>): (r: (Conn, Shared))
    requires CanMmap(c, cn, sh, ok, addr, data)
  {
    var q, res := cn.sv.stage.q, cn.sv.stage.res.value;
    var mr := if res in sh.fields then sh.fields[res].mr else None;
    (cn.(sv := cn.sv.(stage := SMmapped(q, res, addr, ok))),
     sh.(mem := if ok then MapBytes(sh.mem, c, addr, data) else sh.mem,
         fields := sh.fields[res := Fields(addr, q.len, mr)]))
  }

  predicate CanRegMr(cn: Conn, sh: Shared, ok: bool, rkey: U32)
  {
    && cn.sv.stage.SMmapped?
    && cn.sv.stage.q.MapReq?
    && cn.sv.stage.r in sh.fields
    && (ok ==> cn.sv.stage.ok && rkey !in sh.mrs && cn.sv.stage.q.len >= 0)
  }

  /** ibv_reg_mr; on failure the handler unmaps and answers with address 0 and an
      uninitialised key. */
  function DoSRegMr(c: ConnId, cn: Conn, sh: Shared, ok: bool, rkey: U32): (r: (Conn, Shared))
    requires CanRegMr(cn, sh, ok, rkey)
  {
    var q, res, addr := cn.sv.stage.q, cn.sv.stage.r, cn.sv.stage.addr;
    if ok then
      (cn.(sv := cn.sv.(stage := SReply(q, MapRsp(rkey, addr)))),
       sh.(mrs := sh.mrs[rkey := Mr(c, addr, q.len)],
           fields := sh.fields[res := sh.fields[res].(mr := Some(rkey))]))
    else
      (cn.(sv := cn.sv.(stage := SReply(q, MapRsp(rkey, 0)))),
       sh.(mem := UnmapBytes(sh.mem, addr, q.len),
           fields := sh.fields[res := sh.fields[res].(mr := None)]))
  }

  predicate CanDereg(cn: Conn, sh: Shared)
  {
    && cn.sv.stage.SBody?
    && cn.sv.stage.q.UnmapReq?
    && cn.sv.stage.res.Some?
    && cn.sv.stage.res.value in sh.fields
    && sh.fields[cn.sv.stage.res.value].mr.Some?
  }

  function DoSDereg(cn: Conn, sh: Shared): (r: (Conn, Shared))
    requires CanDereg(cn, sh)
  {
    var res := cn.sv.stage.res.value;
    var f := sh.fields[res];
    (cn.(sv := cn.sv.(stage := SUnreg(cn.sv.stage.q, res))),
     sh.(mrs := sh.mrs - {f.mr.value}, fields := sh.fields[res := f.(addr := 0, mapLen := 0)]))
  }

  predicate CanMunmap(cn: Conn) { cn.sv.stage.SUnreg? && cn.sv.stage.q.UnmapReq? }

  /** munmap of the address and length that the request named. */
  function DoSMunmap(cn: Conn, sh: Shared, ok: bool): (r: (Conn, Shared))
    requires CanMunmap(cn)
  {
    var q := cn.sv.stage.q;
    if ok then
      (cn.(sv := cn.sv.(stage := SUnmapped(q, cn.sv.stage.r))), sh.(mem := UnmapBytes(sh.mem, q.addr, q.len)))
    else (cn.(sv := cn.sv.(stage := SReply(q, UnmapRsp(-1)))), sh)
  }

  predicate CanMsync(cn: Conn, sh: Shared, ok: bool)
  {
    && cn.sv.stage.SBody?
    && cn.sv.stage.q.CommitReq?
    && (ok ==> Mapped(sh.mem, cn.sv.stage.q.addr, cn.sv.stage.q.len))
  }

  function DoSMsync(cn: Conn, ok: bool): (r: Conn)
    requires cn.sv.stage.SBody?
  {
    cn.(sv := cn.sv.(stage := SReply(cn.sv.stage.q, CommitRsp(if ok then 0 else -1))))
  }

  function DoSPack(cn: Conn): (r: Conn)
    requires cn.sv.stage.SReply?
  {
    var sv := cn.sv;
    cn.(sv := sv.(rsp := PackResponse(sv.rsp, sv.stage.rsp), stage := SPacked(sv.stage.q, sv.stage.rsp)))
  }

  function DoSPostSend(cn: Conn, ok: bool): (r: Conn)
    requires cn.sv.stage.SPacked?
  {
    var sv := cn.sv;
    if ok then
      cn.(sv := sv.(sq := sv.sq + 1, stage := SSent),
          trace := cn.trace + [Replied(sv.stage.q, sv.stage.rsp)])
    else cn.(sv := sv.(stage := SSent), faulty := true)
  }

  // ---- server adapter

  predicate CanDeliver(cn: Conn) { !cn.broken && cn.sv.sq > 0 && cn.cl.recvs > 0 }

  function DoSDeliver(cn: Conn): (r: Conn)
    requires CanDeliver(cn)
  {
    var cl, sv := cn.cl, cn.sv;
    cn.(cl := cl.(rsp := sv.rsp, recvs := cl.recvs - 1, cq := cl.cq + [Wc(Recv, true)]),
        sv := sv.(sq := sv.sq - 1, unacked := sv.unacked + 1))
  }

  // ---- one step of connection c, by who takes it

  predicate Issues(a: Step)
  {
    a.Begin? || a.CPostRecv? || a.CPostWrite? || a.CPack? || a.CPostSend?
  }

  predicate Finishes(a: Step)
  {
    a.CWake? || a.CUnpack? || a.CPostRead? || a.CWakeRead? || a.AppWrite?
  }

  predicate ClientAdapter(a: Step)
  {
    || a.CExec? || a.CComplete? || a.CPoll?
    || a.Break? || a.CFlushRecv? || a.CFlushSend?
  }

  predicate Handlers(a: Step)
  {
    || a.SLock? || a.SStore? || a.SUnlock? || a.SCheck? || a.SMmap?
    || a.SRegMr? || a.SDereg? || a.SMunmap? || a.SMsync?
  }

  /** Steps of the client thread on its way to the wait for an answer. */
  predicate CanIssue(c: ConnId, cn: Conn, sh: Shared, a: Step)
  {
    match a
    case Begin(cmd, _) => CanBegin(cn.cl, cmd)
    case CPostRecv(ok) => cn.cl.stage.CBegun? && RecvRoom(cn.cl, ok)
    case CPostWrite(ok) => cn.cl.stage == CRecvd(Commit) && SendRoom(cn.cl, ok)
    case CPack => CanPack(cn.cl)
    case CPostSend(ok) => cn.cl.stage.CPacked? && SendRoom(cn.cl, ok)
    case _ => false
  }

  function DoIssue(c: ConnId, cn: Conn, sh: Shared, a: Step): (r: (Conn, Shared))
    requires CanIssue(c, cn, sh, a)
  {
    match a
    case Begin(cmd, alloc) => (DoBegin(cn, cmd, alloc), sh)
    case CPostRecv(ok) => (DoCPostRecv(cn, ok), sh)
    case CPostWrite(ok) => (DoCPostWrite(cn, ok), sh)
    case CPack => (DoCPack(cn), sh)
    case CPostSend(ok) => (DoCPostSend(cn, ok), sh)
  }

  /** Steps of the client thread from its wait to the end of its command, and the application. */
  predicate CanFinish(c: ConnId, cn: Conn, sh: Shared, a: Step)
  {
    match a
    case CWake => cn.cl.stage.CWait? && cn.cl.sem != []
    case CUnpack => cn.cl.stage.CWoken?
    case CPostRead(ok) => cn.cl.stage.CMapDec? && SendRoom(cn.cl, ok)
    case CWakeRead => cn.cl.stage.CReadWait? && cn.cl.sem != []
    case AppWrite(data) => cn.cl.stage.CIdle? && cn.cl.mapped && |data| == cn.cl.mr.len
    case _ => false
  }

  function DoFinish(c: ConnId, cn: Conn, sh: Shared, a: Step): (r: (Conn, Shared))
    requires CanFinish(c, cn, sh, a)
  {
    match a
    case CWake => (DoCWake(cn), sh)
    case CUnpack => (DoCUnpack(cn), sh)
    case CPostRead(ok) => (DoCPostRead(cn, ok), sh)
    case CWakeRead => (DoCWakeRead(cn), sh)
    case AppWrite(data) => (cn.(cl := cn.cl.(mr := cn.cl.mr.(local := data))), sh)
  }

  /** Steps of the client's adapter and completion thread, and failures it meets. */
  predicate CanAdapter(c: ConnId, cn: Conn, sh: Shared, a: Step)
  {
    match a
    case CExec => CanExec(cn)
    case CComplete => !cn.broken && cn.cl.unacked != []
    case CPoll => cn.cl.cq != []
    case Break => true
    case CFlushRecv => cn.broken && cn.cl.recvs > 0
    case CFlushSend => cn.broken && CanFlushSend(cn.cl)
    case _ => false
  }

  function DoAdapter(c: ConnId, cn: Conn, sh: Shared, a: Step): (r: (Conn, Shared))
    requires CanAdapter(c, cn, sh, a)
  {
    match a
    case CExec => DoCExec(c, cn, sh)
    case CComplete => (DoCComplete(cn), sh)
    case CPoll => (DoCPoll(cn), sh)
    case Break => (cn.(broken := true, faulty := true), sh)
    case CFlushRecv => (DoCFlushRecv(cn), sh)
    case CFlushSend => (DoCFlushSend(cn), sh)
  }

  /** Steps of a running handler moving to its next stage. */
  predicate CanHandler(c: ConnId, cn: Conn, sh: Shared, a: Step)
  {
    match a
    case SLock => CanLock(cn, sh)
    case SStore => Holds(sh.pool, c) && InSection(cn.sv) && CanStore(sh.sizes, sh.pool)
    case SUnlock => CanUnlock(c, cn, sh)
    case SCheck(_, _) => cn.sv.stage.SMapDone? && c !in sh.pool.now.owner
    case SMmap(ok, addr, data) => CanMmap(c, cn, sh, ok, addr, data)
    case SRegMr(ok, rkey) => CanRegMr(cn, sh, ok, rkey)
    case SDereg => CanDereg(cn, sh)
    case SMunmap(_) => CanMunmap(cn)
    case SMsync(ok) => CanMsync(cn, sh, ok)
    case _ => false
  }

  function DoHandler(c: ConnId, cn: Conn, sh: Shared, a: Step): (r: (Conn, Shared))
    requires CanHandler(c, cn, sh, a)
  {
    match a
    case SLock => DoSLock(c, cn, sh)
    case SStore => (cn, sh.(pool := Store(sh.sizes, sh.pool)))
    case SUnlock => DoSUnlock(c, cn, sh)
    case SCheck(rkey, addr) => (cn.(sv := cn.sv.(stage := SReply(cn.sv.stage.q, MapRsp(rkey, addr)))), sh)
    case SMmap(ok, addr, data) => DoSMmap(c, cn, sh, ok, addr, data)
    case SRegMr(ok, rkey) => DoSRegMr(c, cn, sh, ok, rkey)
    case SDereg => DoSDereg(cn, sh)
    case SMunmap(ok) => DoSMunmap(cn, sh, ok)
    case SMsync(ok) => (DoSMsync(cn, ok), sh)
  }

  /** Steps of the server's completion thread around the handler bodies, and its adapter. */
  predicate CanServer(c: ConnId, cn: Conn, sh: Shared, a: Step)
  {
    match a
    case SPoll(n) => CanPoll(cn.sv, n)
    case SPollEmpty => CanPollEmpty(cn.sv)
    case SHandle => CanHandle(cn.sv)
    case SDecode => cn.sv.stage.SDispatched?
    case SReadFree => cn.sv.stage.SDecoded? && cn.sv.stage.q.OpenReq?
    case SRepost(_, _, _) => CanRepost(cn.sv)
    case SPack => cn.sv.stage.SReply?
    case SPostSend(_) => cn.sv.stage.SPacked?
    case SReturn => cn.sv.stage.SSent?
    case SDeliver => CanDeliver(cn)
    case SAck => !cn.broken && cn.sv.unacked > 0
    case SError(_) => cn.broken
    case _ => false
  }

  function DoServer(c: ConnId, cn: Conn, sh: Shared, a: Step): (r: (Conn, Shared))
    requires CanServer(c, cn, sh, a)
  {
    match a
    case SPoll(n) => (DoSPoll(cn, n), sh)
    case SPollEmpty => (cn.(sv := cn.sv.(drained := 0)), sh)
    case SHandle => (DoSHandle(cn), sh)
    case SDecode => (DoSDecode(c, cn, sh), sh)
    case SReadFree => (cn.(sv := cn.sv.(stage := SOpenRead(AsInt(sh.pool.now.free)))), sh)
    case SRepost(ok, rkey, addr) => (DoSRepost(cn, ok, rkey, addr), sh)
    case SPack => (DoSPack(cn), sh)
    case SPostSend(ok) => (DoSPostSend(cn, ok), sh)
    case SReturn => (cn.(sv := cn.sv.(stage := SIdle)), sh)
    case SDeliver => (DoSDeliver(cn), sh)
    case SAck => (cn.(sv := cn.sv.(unacked := cn.sv.unacked - 1, cq := cn.sv.cq + [Wc(Send, true)])), sh)
    case SError(op) => (cn.(sv := cn.sv.(cq := cn.sv.cq + [Wc(op, false)])), sh)
  }

  predicate Enabled(c: ConnId, cn: Conn, sh: Shared, a: Step)
  {
    if Issues(a) then CanIssue(c, cn, sh, a)
    else if Finishes(a) then CanFinish(c, cn, sh, a)
    else if ClientAdapter(a) then CanAdapter(c, cn, sh, a)
    else if Handlers(a) then CanHandler(c, cn, sh, a)
    else CanServer(c, cn, sh, a)
  }

  function Apply(c: ConnId, cn: Conn, sh: Shared, a: Step): (r: (Conn, Shared))
    requires Enabled(c, cn, sh, a)
  {
    if Issues(a) then DoIssue(c, cn, sh, a)
    else if Finishes(a) then DoFinish(c, cn, sh, a)
    else if ClientAdapter(a) then DoAdapter(c, cn, sh, a)
    else if Handlers(a) then DoHandler(c, cn, sh, a)
    else DoServer(c, cn, sh, a)
  }

  // ---- runs

  /** A new connection: the server has posted its receive before accepting, and the
      client is about to send its open request. */
  function NewConn(req: Buffer, rsp: Buffer): (cn: Conn)
  {
    Conn(Client(CBegun(Open), req, rsp, 0, [], [], [], [], NO_MR, false, false),
         Server(SIdle, Zeroed(), rsp, 1, 0, 0, [], 0, 0),
         false, false, [])
  }

  predicate CanStep(s: State, c: ConnId, a: Step)
  {
    c in s.conns && Enabled(c, s.conns[c], s.sh, a)
  }

  function Next(s: State, c: ConnId, a: Step): (t: State)
    requires CanStep(s, c, a)
  {
    var (cn, sh) := Apply(c, s.conns[c], s.sh, a);
    State(s.conns[c := cn], sh)
  }

  ghost predicate Initial(s: State)
  {
    && (forall c :: c in s.conns ==> exists req, rsp :: s.conns[c] == NewConn(req, rsp))
    && var sh := s.sh;
       && SumSet(sh.sizes, sh.sizes.Keys) < TWO31
       && Listed(sh.sizes, sh.pool.now.list)
       && NoDup(sh.pool.now.list)
       && Elems(sh.pool.now.list) == sh.sizes.Keys
       && sh.pool == Pool(Shot(sh.pool.now.list, map[], SumSeq(sh.sizes, sh.pool.now.list), 0), Unlocked)
       && sh.fields.Keys == sh.sizes.Keys
       && sh.mrs == map[]
       && sh.mem == map[]
  }

  /** A run: states[i+1] is reached from states[i] by one step of one connection. */
  ghost predicate IsRun(run: seq<State>)
  {
    && run != []
    && Initial(run[0])
    && forall i :: 0 <= i < |run| - 1 ==> OneStep(run[i], run[i + 1])
  }

  ghost predicate OneStep(s: State, t: State)
  {
    exists c, a :: CanStep(s, c, a) && t == Next(s, c, a)
  }
}
