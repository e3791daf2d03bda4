/** What map delivers: over whole runs, the bytes that rpmem_map returns are the bytes of the
    mapping that the server's mmap made for that same map. */
module Delivery {
  import opened Wire
  import opened PoolModel
  import opened System
  import opened Invariant
  import opened SharedSteps
  import opened Induction
  import opened Safety
  import opened Termination
  import opened Footprint

  /** From posting the request of a map to returning its buffer. */
  predicate InMap(cl: Client)
  {
    match cl.stage
    case CWait(cmd) => cmd.Map?
    case CWoken(cmd) => cmd.Map?
    case CMapDec => true
    case CReadWait => true
    case _ => false
  }

  /** The server keeps a mapping at this address for the running map. */
  ghost predicate Serving(c: ConnId, st: SStage, sh: Shared, addr: U64, len: Len)
  {
    || (st.SMmapped? && st.ok && st.addr == addr && st.q == MapReq(len))
    || (exists k :: k in sh.mrs && sh.mrs[k] == Mr(c, addr, len))
  }

  /** The bytes from `addr` on were mapped for c and are these. */
  ghost predicate Contains(c: ConnId, mem: Memory, addr: U64, data: seq<Byte>)
  {
    forall a: nat :: addr <= a < addr + |data| ==> a in mem && mem[a] == Cell(c, data[a - addr])
  }

  /** The mapping of the running map holds these bytes. */
  ghost predicate Holding(c: ConnId, cn: Conn, sh: Shared, addr: U64, data: seq<Byte>)
  {
    && |data| < TWO31
    && InMap(cn.cl) && Serving(c, cn.sv.stage, sh, addr, |data|) && Contains(c, sh.mem, addr, data)
  }

  // ---- one step back

  lemma IssueBack(c: ConnId, cn: Conn, sh: Shared, a: Step, addr: U64, data: seq<Byte>)
    requires ConnInv(c, cn, sh) && CanIssue(c, cn, sh, a)
    ensures !Holding(c, DoIssue(c, cn, sh, a).0, DoIssue(c, cn, sh, a).1, addr, data)
  {
    hide Local, Mapping, Contains, DoIssue, CanIssue;
    var r := DoIssue(c, cn, sh, a).0;
    IssueServer(c, cn, sh, a);
    if InMap(r.cl) {
      IssueMaps(c, cn, sh, a);
      PackedUnserved(c, cn, sh);
    }
  }

  lemma IssueMaps(c: ConnId, cn: Conn, sh: Shared, a: Step)
    requires CanIssue(c, cn, sh, a) && InMap(DoIssue(c, cn, sh, a).0.cl)
    ensures cn.cl.stage.CPacked? && cn.cl.stage.cmd.Map?
  {
    hide PackRequest, ReqOf, RecvRoom, SendRoom;
  }

  lemma PackedUnserved(c: ConnId, cn: Conn, sh: Shared)
    requires ConnInv(c, cn, sh) && cn.cl.stage.CPacked? && cn.cl.stage.cmd.Map?
    ensures NoMr(c, sh) && !cn.sv.stage.SMmapped?
  {
    hide Shape, Credits, GoodTrace, LastIssued, LastReplied, HandlerHas;
  }

  lemma FinishBack(c: ConnId, cn: Conn, sh: Shared, a: Step)
    requires CanFinish(c, cn, sh, a)
    ensures InMap(DoFinish(c, cn, sh, a).0.cl) ==> InMap(cn.cl)
  {
    hide GetU32, GetU64, SendRoom;
  }

  /** While a map runs no WRITE is queued. */
  lemma AdapterBack(c: ConnId, cn: Conn, sh: Shared, a: Step)
    requires Shape(cn) && CmdInv(cn.cl) && CanAdapter(c, cn, sh, a) && InMap(cn.cl)
    ensures DoAdapter(c, cn, sh, a).1 == sh
  {
    hide Access, WriteBytes, Load, Past, WritesFirst, WritesOf;
  }

  lemma MmapBack(c: ConnId, cn: Conn, sh: Shared, cmd: Cmd, a: Step, addr: U64, data: seq<Byte>)
    requires Handling(c, cn, sh, cmd) && CanHandler(c, cn, sh, a) && a.SMmap?
    requires Holding(c, DoHandler(c, cn, sh, a).0, DoHandler(c, cn, sh, a).1, addr, data)
    ensures a == SMmap(true, addr, data)
  {
    hide Fresh, Pending, Arrivals, Outcome;
    var mem := DoHandler(c, cn, sh, a).1.mem;
    assert NoMr(c, sh);
    assert |a.data| == |data|;
    forall i | 0 <= i < |data| ensures a.data[i] == data[i] {
      var b: nat := addr + i;
      assert mem[b] == Cell(c, data[i]);
    }
  }

  lemma RegMrBack(c: ConnId, cn: Conn, sh: Shared, cmd: Cmd, a: Step, addr: U64, data: seq<Byte>)
    requires Handling(c, cn, sh, cmd) && CanHandler(c, cn, sh, a) && a.SRegMr?
    requires Holding(c, DoHandler(c, cn, sh, a).0, DoHandler(c, cn, sh, a).1, addr, data)
    ensures Holding(c, cn, sh, addr, data)
  {
    hide UnmapBytes, Contains, Pending, Arrivals, Outcome;
    var (r, sh') := DoHandler(c, cn, sh, a);
    var k :| k in sh'.mrs && sh'.mrs[k] == Mr(c, addr, |data|);
    assert k == a.rkey && sh'.mem == sh.mem;
  }

  lemma CallBack(c: ConnId, cn: Conn, sh: Shared, cmd: Cmd, a: Step, addr: U64, data: seq<Byte>)
    requires Handling(c, cn, sh, cmd) && cmd.Map? && CanHandler(c, cn, sh, a) && !a.SMmap? && !a.SRegMr?
    requires Holding(c, DoHandler(c, cn, sh, a).0, DoHandler(c, cn, sh, a).1, addr, data)
    ensures Holding(c, cn, sh, addr, data)
  {
    hide UnmapBytes, MapBytes, Contains, Pending, Arrivals, Outcome, Store, CanStore, Mapped, Fresh;
  }

  lemma HandlerBack(c: ConnId, cn: Conn, sh: Shared, a: Step, addr: U64, data: seq<Byte>)
    requires ConnInv(c, cn, sh) && CanHandler(c, cn, sh, a)
    requires Holding(c, DoHandler(c, cn, sh, a).0, DoHandler(c, cn, sh, a).1, addr, data)
    ensures Holding(c, cn, sh, addr, data) || a == SMmap(true, addr, data)
    ensures InMap(cn.cl)
  {
    hide Local, Mapping, Handling, CanHandler, DoHandler, Serving, Contains;
    HandlerInBody(c, cn, sh, a);
    HandlerRuns(c, cn, sh);
    HandlerStage(c, cn, sh, a);
    if a.SMmap? {
      MmapBack(c, cn, sh, cn.cl.stage.cmd, a, addr, data);
    } else if a.SRegMr? {
      RegMrBack(c, cn, sh, cn.cl.stage.cmd, a, addr, data);
    } else {
      CallBack(c, cn, sh, cn.cl.stage.cmd, a, addr, data);
    }
  }

  /** What the mapping of a running map holds it held before, unless this step is the mmap
      that filled it. */
  lemma StepBack(c: ConnId, cn: Conn, sh: Shared, a: Step, addr: U64, data: seq<Byte>)
    requires ConnInv(c, cn, sh) && Enabled(c, cn, sh, a)
    requires Holding(c, Apply(c, cn, sh, a).0, Apply(c, cn, sh, a).1, addr, data)
    ensures Holding(c, cn, sh, addr, data) || a == SMmap(true, addr, data)
    ensures InMap(cn.cl)
  {
    hide Shape, Content, Credits, CmdInv, Mapping, Contains, DoIssue, DoFinish, DoAdapter, DoServer, DoHandler,
      CanIssue, CanFinish, CanAdapter, CanServer, CanHandler;
    if Issues(a) {
      IssueBack(c, cn, sh, a, addr, data);
    } else if Finishes(a) {
      FinishServer(c, cn, sh, a);
      FinishBack(c, cn, sh, a);
    } else if ClientAdapter(a) {
      AdapterFrame(c, cn, sh, a);
      AdapterBack(c, cn, sh, a);
    } else if Handlers(a) {
      HandlerBack(c, cn, sh, a, addr, data);
    } else {
      ServerStages(c, cn, sh, a);
    }
  }

  lemma OtherBack(c: ConnId, cn: Conn, sh: Shared, sh': Shared, d: ConnId, addr: U64, data: seq<Byte>)
    requires Stable(c, sh, sh') && OwnBytes(d, sh.mem, sh'.mem) && d != c && Holding(c, cn, sh', addr, data)
    ensures Holding(c, cn, sh, addr, data)
  {
    forall a: nat | addr <= a < addr + |data| ensures a in sh.mem && sh.mem[a] == Cell(c, data[a - addr]) {
      assert sh'.mem[a] == Cell(c, data[a - addr]);
    }
  }

  lemma NextBack(s: State, d: ConnId, a: Step, c: ConnId, addr: U64, data: seq<Byte>)
    requires Inv(s) && CanStep(s, d, a) && c in s.conns
    requires Holding(c, Next(s, d, a).conns[c], Next(s, d, a).sh, addr, data)
    ensures Holding(c, s.conns[c], s.sh, addr, data) || (d == c && a == SMmap(true, addr, data))
    ensures InMap(s.conns[c].cl)
  {
    hide Local, Mapping, SharedInv, Enabled, Apply, Serving, Contains, Stable;
    if d == c {
      StepBack(c, s.conns[c], s.sh, a, addr, data);
    } else {
      NextKeeps(s, d, a);
      StepOwnBytes(d, s.conns[d], s.sh, a);
      OtherBack(c, s.conns[c], s.sh, Next(s, d, a).sh, d, addr, data);
    }
  }

  // ---- over runs

  lemma StartsEmpty(run: seq<State>, c: ConnId)
    requires IsRun(run) && c in run[0].conns
    ensures !InMap(run[0].conns[c].cl)
  {
    var req, rsp :| run[0].conns[c] == NewConn(req, rsp);
  }

  lemma {:induction false} HeldSince(run: seq<State>, i: nat, c: ConnId, addr: U64, data: seq<Byte>) returns (j: nat)
    requires IsRun(run) && i < |run| && c in run[i].conns && Holding(c, run[i].conns[c], run[i].sh, addr, data)
    ensures j < i && CanStep(run[j], c, SMmap(true, addr, data)) && run[j + 1] == Next(run[j], c, SMmap(true, addr, data))
    ensures forall k :: j <= k <= i ==> c in run[k].conns && InMap(run[k].conns[c].cl)
  {
    hide Inv, Initial, Next, CanStep, Serving, Contains, InMap;
    if i == 0 {
      StartsEmpty(run, c);
    } else {
      RunInv(run, i - 1);
      assert OneStep(run[i - 1], run[i - 1 + 1]);
      var d, a :| CanStep(run[i - 1], d, a) && run[i] == Next(run[i - 1], d, a);
      NextConns(run[i - 1], d, a);
      NextBack(run[i - 1], d, a, c, addr, data);
      if d == c && a == SMmap(true, addr, data) {
        return i - 1;
      }
      j := HeldSince(run, i - 1, c, addr, data);
    }
  }

  /** A handle that is live and a buffer equal to its region. */
  lemma RegionContains(c: ConnId, st: SStage, sh: Shared, mr: LocalMr)
    requires LiveHandle(c, sh, mr) && |mr.local| == mr.len && mr.local == Region(sh, mr)
    ensures Serving(c, st, sh, mr.raddr, mr.len) && Contains(c, sh.mem, mr.raddr, mr.local)
  {
    assert sh.mrs[mr.rkey] == Mr(c, mr.raddr, mr.len);
    forall a: nat | mr.raddr <= a < mr.raddr + |mr.local|
      ensures a in sh.mem && sh.mem[a] == Cell(c, mr.local[a - mr.raddr])
    {
      assert Region(sh, mr)[a - mr.raddr] == ByteAt(sh.mem, mr.raddr + (a - mr.raddr));
    }
  }

  lemma WakeFrame(s: State, c: ConnId)
    requires CanStep(s, c, CWakeRead)
    ensures var t := Next(s, c, CWakeRead);
            s.conns[c].cl.stage.CReadWait? && t.conns[c].cl.mr == s.conns[c].cl.mr && t.sh == s.sh
  {
    hide CanIssue, CanAdapter, CanServer, CanHandler, DoIssue, DoAdapter, DoServer, DoHandler;
  }

  lemma ReturnHolds(s: State, c: ConnId)
    requires Reachable(s) && CanStep(s, c, CWakeRead)
    ensures var cl := s.conns[c].cl; Holding(c, s.conns[c], s.sh, cl.mr.raddr, cl.mr.local)
    ensures Next(s, c, CWakeRead).conns[c].cl.mr == s.conns[c].cl.mr
  {
    hide Reachable, Enabled, Apply, Next, LiveHandle, Region, Serving, Contains;
    MapReturns(s, c);
    WakeFrame(s, c);
    RegionContains(c, s.conns[c].sv.stage, s.sh, s.conns[c].cl.mr);
  }

  /** Whenever rpmem_map returns its buffer, the server's mmap succeeded earlier in the run,
      within that same map, at the address that the handle names, and what the buffer holds
      is what that mmap mapped, byte for byte. */
  lemma MapDelivers(run: seq<State>, i: nat, c: ConnId) returns (j: nat, data: seq<Byte>)
    requires IsRun(run) && i < |run| && CanStep(run[i], c, CWakeRead)
    ensures var cl := Next(run[i], c, CWakeRead).conns[c].cl;
            && cl.mapped && |data| == |cl.mr.local| == cl.mr.len
            && (forall b :: 0 <= b < |data| ==> cl.mr.local[b] == data[b])
            && j < i && CanStep(run[j], c, SMmap(true, cl.mr.raddr, data))
            && run[j + 1] == Next(run[j], c, SMmap(true, cl.mr.raddr, data))
    ensures forall k :: j <= k <= i ==> c in run[k].conns && InMap(run[k].conns[c].cl)
  {
    hide Initial, OneStep, Holding, Reachable, Inv, LiveHandle, Region, InMap;
    PrefixReachable(run, i);
    MapReturns(run[i], c);
    ReturnHolds(run[i], c);
    data := run[i].conns[c].cl.mr.local;
    j := HeldSince(run, i, c, run[i].conns[c].cl.mr.raddr, data);
  }
}
