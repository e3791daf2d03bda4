/** A map that the server could not serve. MAP_RSP does not say so; the READ that follows is
    refused. When a map that has posted its READ can return, and a run in which it cannot. */
module Refused {
  import opened Wire
  import opened PoolModel
  import opened System
  import opened Invariant
  import opened SharedSteps
  import opened Induction
  import opened Safety
  import opened Termination
  import opened Drain
  import opened Progress
  import opened Return
  import opened ThreadEnd
  import LocalSteps

  // ---- a map that has posted its READ

  /** From unpacking its answer on, that answer is the last event of the connection. */
  predicate GotAnswer(cn: Conn) { cn.cl.stage.CMapDec? || cn.cl.stage.CReadWait? ==> LastGot(cn.trace) }

  lemma IssueGot(c: ConnId, cn: Conn, sh: Shared, a: Step)
    requires GotAnswer(cn) && CanIssue(c, cn, sh, a)
    ensures GotAnswer(DoIssue(c, cn, sh, a).0)
  {
    hide PackRequest, ReqOf, LastGot;
  }

  lemma FinishGot(c: ConnId, cn: Conn, sh: Shared, a: Step)
    requires GotAnswer(cn) && CanFinish(c, cn, sh, a)
    ensures GotAnswer(DoFinish(c, cn, sh, a).0)
  {
    hide UnpackResponse, SendRoom;
  }

  lemma ServerGot(c: ConnId, cn: Conn, sh: Shared, a: Step)
    requires Content(cn) && GotAnswer(cn) && CanServer(c, cn, sh, a)
    ensures GotAnswer(DoServer(c, cn, sh, a).0)
  {
    hide GoodTrace, LastIssued, LastReplied, HandlerHas, PackResponse, HandlerView, LastGot;
  }

  lemma HandlerGot(c: ConnId, cn: Conn, sh: Shared, a: Step)
    requires GotAnswer(cn) && CanHandler(c, cn, sh, a)
    ensures GotAnswer(DoHandler(c, cn, sh, a).0)
  {
    hide CanHandler, DoHandler;
    HandlerStage(c, cn, sh, a);
  }

  lemma GotStep(c: ConnId, cn: Conn, sh: Shared, a: Step)
    requires Local(cn) && GotAnswer(cn) && Enabled(c, cn, sh, a)
    ensures GotAnswer(Apply(c, cn, sh, a).0)
  {
    hide Shape, Content, Credits, CmdInv, LastGot, DoIssue, DoFinish, DoAdapter, DoServer, DoHandler,
      CanIssue, CanFinish, CanAdapter, CanServer, CanHandler;
    if Issues(a) {
      IssueGot(c, cn, sh, a);
    } else if Finishes(a) {
      FinishGot(c, cn, sh, a);
    } else if ClientAdapter(a) {
      AdapterFrame(c, cn, sh, a);
    } else if Handlers(a) {
      HandlerGot(c, cn, sh, a);
    } else {
      ServerGot(c, cn, sh, a);
    }
  }

  lemma GotNext(s: State, d: ConnId, a: Step, c: ConnId)
    requires Inv(s) && CanStep(s, d, a) && c in s.conns && GotAnswer(s.conns[c])
    ensures GotAnswer(Next(s, d, a).conns[c])
  {
    hide SharedInv, Local, Mapping, Enabled, Apply, GotAnswer;
    if d == c { GotStep(c, s.conns[c], s.sh, a); }
  }

  lemma {:induction false} RunGot(run: seq<State>, i: nat, c: ConnId)
    requires IsRun(run) && i < |run| && c in run[i].conns
    ensures GotAnswer(run[i].conns[c])
  {
    hide Next, CanStep, Inv;
    if i == 0 {
      var req, rsp :| run[0].conns[c] == NewConn(req, rsp);
    } else {
      assert OneStep(run[i - 1], run[i - 1 + 1]);
      var d, a :| CanStep(run[i - 1], d, a) && run[i] == Next(run[i - 1], d, a);
      NextConns(run[i - 1], d, a);
      RunInv(run, i - 1);
      RunGot(run, i - 1, c);
      GotNext(run[i - 1], d, a, c);
    }
  }

  lemma ReachableGot(s: State, c: ConnId)
    requires Reachable(s) && c in s.conns
    ensures GotAnswer(s.conns[c])
  {
    hide Initial, OneStep;
    var run :| IsRun(run) && run[|run| - 1] == s;
    RunGot(run, |run| - 1, c);
  }

  /** `FailedMapNeverReturns` over paths. */
  lemma {:induction false} StaysRefused(s: State, acts: seq<Act>, t: State, c: ConnId)
    requires Inv(s) && c in s.conns && s.conns[c].cl.stage.CReadWait? && NoMr(c, s.sh) && Path(s, acts, t)
    ensures c in t.conns && t.conns[c].cl.stage.CReadWait?
    decreases |acts|
  {
    hide Inv, Next, CanStep, NoMr;
    if acts != [] {
      var d, a := acts[0].0, acts[0].1;
      NoMrStep(s, d, a, c);
      NextKeeps(s, d, a);
      StaysRefused(Next(s, d, a), acts[1..], t, c);
    }
  }

  lemma ReadHopes(s: State, c: ConnId)
    requires Inv(s) && c in s.conns && s.conns[c].cl.stage.CReadWait? && GotAnswer(s.conns[c]) && !NoMr(c, s.sh)
    ensures Hope(c, s.conns[c], s.sh, ANY) && !Late(s.conns[c])
  {
    hide SharedInv, Local, Mapping, LastGot;
    if Asked(s.conns[c]) { AskedLoad(s.conns[c]); }
  }

  /** A map that has posted its READ and met no failure can return without one if and only
      if its connection has a registration: MAP_RSP does not say which. */
  lemma MapReadReturns(s: State, c: ConnId)
    requires Reachable(s) && c in s.conns && !s.conns[c].faulty && s.conns[c].cl.stage.CReadWait?
    ensures (exists acts, t :: ReturnsBy(s, acts, t, c)) <==> !NoMr(c, s.sh)
  {
    hide Reachable, Inv, Path, Hope, Late, NoMr, GotAnswer, LastGot;
    ReachableInv(s);
    ReachableGot(s, c);
    if !NoMr(c, s.sh) {
      ReadHopes(s, c);
      CommandReturns(s, c, ANY);
    } else {
      forall acts, t | ReturnsBy(s, acts, t, c) ensures false { StaysRefused(s, acts, t, c); }
    }
  }

  // ---- a run in which it cannot

  /** No resource is large enough for the running map, and the unit holds nothing. */
  ghost predicate Starving(c: ConnId, cn: Conn, sh: Shared, len: Len)
  {
    && !cn.faulty && Busy(cn) && CmdOf(cn.cl) == Map(len)
    && Barren(c, cn.sv.stage, sh, len)
  }

  ghost predicate Barren(c: ConnId, st: SStage, sh: Shared, len: Len)
  {
    && (forall r :: r in sh.sizes ==> sh.sizes[r] <= len)
    && Unheld(c, sh)
    && (sh.pool.lock.Unlocked? || Holds(sh.pool, c))
    && (st.SMapLocked? ==> sh.pool.lock.Taking? && sh.pool.lock.len == len && sh.pool.lock.res.None?)
  }

  lemma IssueStarves(c: ConnId, cn: Conn, sh: Shared, a: Step, len: Len)
    requires Starving(c, cn, sh, len) && CanIssue(c, cn, sh, a)
    requires a == CPostRecv(true) || a == CPostWrite(true) || a == CPack || a == CPostSend(true)
    ensures var (r, sh') := DoIssue(c, cn, sh, a); Starving(c, r, sh', len)
  {
    hide Barren, PackRequest, ReqOf, RecvRoom, SendRoom;
  }

  lemma UnpackStarves(c: ConnId, cn: Conn, sh: Shared, len: Len)
    requires Local(cn) && Starving(c, cn, sh, len) && cn.cl.stage.CWoken?
    ensures Starving(c, DoCUnpack(cn), sh, len)
  {
    hide Shape, Credits, Barren, GoodTrace, HandlerHas, GetU32, GetU64;
  }

  lemma FinishStarves(c: ConnId, cn: Conn, sh: Shared, a: Step, len: Len)
    requires Local(cn) && Starving(c, cn, sh, len) && CanFinish(c, cn, sh, a) && !cn.cl.stage.CReadWait?
    requires a == CWake || a == CUnpack || a == CPostRead(true)
    ensures var (r, sh') := DoFinish(c, cn, sh, a); Starving(c, r, sh', len)
  {
    hide Local, Barren, DoCUnpack, SendRoom;
    if a.CUnpack? { UnpackStarves(c, cn, sh, len); }
  }

  lemma AdapterStarves(c: ConnId, cn: Conn, sh: Shared, a: Step, len: Len)
    requires ConnInv(c, cn, sh) && Starving(c, cn, sh, len) && CanAdapter(c, cn, sh, a) && !cn.cl.stage.CReadWait?
    requires a == CExec || a == CComplete || a == CPoll
    ensures var (r, sh') := DoAdapter(c, cn, sh, a); Starving(c, r, sh', len)
  {
    hide Local, Mapping, Barren, Access, WriteBytes;
    if a.CExec? {
      if cn.cl.sq[0].WrRead? { ReadStage(cn); }
      if cn.cl.sq[0].WrWrite? { WriteAccess(c, cn, sh); }
    }
  }

  lemma ServerStarves(c: ConnId, cn: Conn, sh: Shared, a: Step, len: Len)
    requires Starving(c, cn, sh, len) && CanServer(c, cn, sh, a)
    requires a.SRepost? || a.SPostSend? ==> a.ok
    requires !a.SError?
    ensures var (r, sh') := DoServer(c, cn, sh, a); Starving(c, r, sh', len)
  {
    hide Unheld, PackResponse, HandlerView;
  }

  /** The search finds nothing. */
  lemma NothingFits(sizes: Sizes, s: Shot, len: int)
    requires Listed(sizes, s.list) && forall r :: r in sizes ==> sizes[r] <= len
    ensures Chosen(sizes, s, len).None?
  {
  }

  lemma PoolStarves(c: ConnId, cn: Conn, sh: Shared, a: Step, len: Len)
    requires Handling(c, cn, sh, Map(len)) && Starving(c, cn, sh, len) && CanHandler(c, cn, sh, a) && InPool(a)
    ensures var (r, sh') := DoHandler(c, cn, sh, a); Starving(c, r, sh', len)
  {
    hide Chosen, FirstFit, Pending, Arrivals, CanMmap, CanRegMr, CanDereg, CanMsync, DoSMmap, DoSRegMr, DoSDereg, DoSMunmap;
    if a.SStore? && sh.pool.lock.Taking? && sh.pool.lock.k == 0 { NothingFits(sh.sizes, sh.pool.now, len); }
  }

  /** Without a resource the handler only answers. */
  lemma CallStarves(c: ConnId, cn: Conn, sh: Shared, a: Step, len: Len)
    requires Handling(c, cn, sh, Map(len)) && Starving(c, cn, sh, len) && CanHandler(c, cn, sh, a) && !InPool(a)
    ensures var (r, sh') := DoHandler(c, cn, sh, a); Starving(c, r, sh', len)
  {
    hide MapBytes, UnmapBytes, Fresh, Mapped, Pending, Arrivals, Store, CanStore, DoSLock, DoSUnlock, CanLock, CanUnlock;
  }

  lemma HandlerStarves(c: ConnId, cn: Conn, sh: Shared, a: Step, len: Len)
    requires Handling(c, cn, sh, Map(len)) && Starving(c, cn, sh, len) && CanHandler(c, cn, sh, a)
    ensures var (r, sh') := DoHandler(c, cn, sh, a); Starving(c, r, sh', len)
  {
    hide Handling, Starving, CanHandler, DoHandler;
    if InPool(a) {
      PoolStarves(c, cn, sh, a, len);
    } else {
      CallStarves(c, cn, sh, a, len);
    }
  }

  lemma StarveStep(c: ConnId, cn: Conn, sh: Shared, a: Step, len: Len)
    requires ConnInv(c, cn, sh) && Starving(c, cn, sh, len) && !cn.cl.stage.CReadWait?
    requires Clean(c, cn, sh, ANY, a) && Enabled(c, cn, sh, a)
    ensures var (r, sh') := Apply(c, cn, sh, a); Starving(c, r, sh', len)
  {
    hide Local, Mapping, Starving, DoIssue, DoFinish, DoAdapter, DoServer, DoHandler,
      CanIssue, CanFinish, CanAdapter, CanServer, CanHandler, HandlerAdvance;
    if Issues(a) {
      IssueStarves(c, cn, sh, a, len);
    } else if Finishes(a) {
      WakesNoRead(c, cn, sh, a);
      FinishStarves(c, cn, sh, a, len);
    } else if ClientAdapter(a) {
      AdapterStarves(c, cn, sh, a, len);
    } else if Handlers(a) {
      StarvingHandler(c, cn, sh, a, len);
      HandlerStarves(c, cn, sh, a, len);
    } else {
      ServerStarves(c, cn, sh, a, len);
    }
  }

  lemma WakesNoRead(c: ConnId, cn: Conn, sh: Shared, a: Step)
    requires CanFinish(c, cn, sh, a) && !cn.cl.stage.CReadWait?
    ensures !a.CWakeRead?
  {
  }

  lemma StarvingHandler(c: ConnId, cn: Conn, sh: Shared, a: Step, len: Len)
    requires Local(cn) && Mapping(c, cn, sh) && Starving(c, cn, sh, len) && CanHandler(c, cn, sh, a)
    ensures Handling(c, cn, sh, Map(len))
  {
    hide Local, Mapping, Handling, Barren;
    HandlerInBody(c, cn, sh, a);
    HandlerRuns(c, cn, sh);
  }

  lemma StarveNext(s: State, c: ConnId, len: Len)
    requires Inv(s) && c in s.conns && Starving(c, s.conns[c], s.sh, len) && !Late(s.conns[c])
    requires !s.conns[c].cl.stage.CReadWait?
    ensures var a := Advance(c, s.conns[c], s.sh, ANY);
            && Ordinary(a) && CanStep(s, c, a)
            && var m := Next(s, c, a);
               && Inv(m) && c in m.conns && Starving(c, m.conns[c], m.sh, len) && !Late(m.conns[c])
               && Work(c, m.conns[c], m.sh) < Work(c, s.conns[c], s.sh)
  {
    hide SharedInv, Local, StageMap, Enabled, Apply, Late, Clean, Advance, Work, CmdOf, Deaf, Ordinary, Unheld;
    var cn := s.conns[c];
    var a := Advance(c, cn, s.sh, ANY);
    DeafAtRisk(cn);
    AdvanceEnabled(c, cn, s.sh, ANY);
    if a.SLock? { LockStage(c, cn, s.sh, ANY); }
    AdvanceClean(c, cn, s.sh, ANY);
    StarveStep(c, cn, s.sh, a, len);
    WorkDrops(c, cn, s.sh, a);
    StaysInTime(c, cn, s.sh, ANY);
    NextKeeps(s, c, a);
  }

  lemma {:induction false} Starves(s: State, c: ConnId, len: Len) returns (acts: seq<Act>, t: State)
    requires Inv(s) && c in s.conns && Starving(c, s.conns[c], s.sh, len) && !Late(s.conns[c])
    ensures Calm(s, acts, t, c) && t.conns[c].cl.stage.CReadWait? && Starving(c, t.conns[c], t.sh, len)
    decreases Work(c, s.conns[c], s.sh)
  {
    hide Inv, Next, CanStep, Work, Advance, Ordinary, Late, Barren, CmdOf;
    if s.conns[c].cl.stage.CReadWait? {
      acts, t := [], s;
    } else {
      StarveNext(s, c, len);
      var a := Advance(c, s.conns[c], s.sh, ANY);
      var rest;
      rest, t := Starves(Next(s, c, a), c, len);
      acts := [(c, a)] + rest;
      assert acts[1..] == rest && acts[0] == (c, a);
      assert Path(s, acts, t);
      assert forall k :: 0 < k < |acts| ==> acts[k] == rest[k - 1];
    }
  }

  lemma StartsBarren(s: State, c: ConnId, cn: Conn, len: Len)
    requires Initial(s) && forall r :: r in s.sh.sizes ==> s.sh.sizes[r] <= len
    requires cn.cl.stage == CBegun(Map(len)) && !cn.faulty && !InSection(cn.sv)
    ensures Starving(c, cn, s.sh, len)
  {
  }

  /** From every initial state in which no resource is larger than `len`, a run of open and
      map without any failure reaches a client that waits for its READ on a connection
      without a registration: that map never returns. */
  lemma MapCanBeRefused(s: State, c: ConnId, len: Len)
    requires Initial(s) && c in s.conns && forall r :: r in s.sh.sizes ==> s.sh.sizes[r] <= len
    ensures exists acts, t ::
              && Calm(s, acts, t, c) && Reachable(t) && t.conns[c].cl.stage.CReadWait? && NoMr(c, t.sh)
              && !exists more, u :: ReturnsBy(t, more, u, c)
  {
    hide Initial, Inv, Calm, Reachable, NoMr, Late, Tally, Commands, ReturnsBy, Starving;
    var begun, m := OpenThenMap(s, c, len);
    var rest, t := Starves(m, c, len);
    CalmConcat(s, begun, m, rest, t, c);
    CalmInv(s, begun + rest, t, c);
    StartReachable(s);
    PathReachable(s, begun + rest, t);
    StarvedRead(c, t.conns[c], t.sh, len);
    MapReadReturns(t, c);
  }

  lemma StarvedRead(c: ConnId, cn: Conn, sh: Shared, len: Len)
    requires Starving(c, cn, sh, len)
    ensures NoMr(c, sh)
  {
  }

  lemma OpenThenMap(s: State, c: ConnId, len: Len) returns (acts: seq<Act>, m: State)
    requires Initial(s) && c in s.conns && forall r :: r in s.sh.sizes ==> s.sh.sizes[r] <= len
    ensures Calm(s, acts, m, c) && Inv(m) && c in m.conns && Starving(c, m.conns[c], m.sh, len) && !Late(m.conns[c])
  {
    hide Inv, Calm, Tally, Commands, Arrivals, Hope, Starving, Late;
    var open, o := Opens(s, c);
    CalmInv(s, open, o, c);
    var begin;
    begin, m := BeginNext(o, c, Map(len));
    CalmInv(o, begin, m, c);
    acts := open + begin;
    CalmConcat(s, open, o, begin, m, c);
    BegunQuiet(m, c);
    BeginsInTimeAt(m, c);
    StartsBarren(s, c, m.conns[c], len);
  }

  lemma BegunQuiet(s: State, c: ConnId)
    requires Inv(s) && c in s.conns && s.conns[c].cl.stage.CBegun?
    ensures !InSection(s.conns[c].sv)
  {
    hide SharedInv, Mapping, CmdInv, Credits, Shape, GoodTrace;
  }

  lemma BeginsInTimeAt(s: State, c: ConnId)
    requires Inv(s) && c in s.conns && ToCome(s.conns[c]) && !Arrived(s.conns[c]) && Tally(s.conns[c]) <= BUDGET + 1
    ensures !Late(s.conns[c])
  {
    hide SharedInv, Local, Mapping, Tally, ToCome, Late;
    BeginsInTime(s.conns[c]);
  }
}
