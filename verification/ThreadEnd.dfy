/** The end of the server's completion thread: which requests can be lost to it, that the
    first 32 commands of a connection cannot, and a failure-free run that loses the next. */
module ThreadEnd {
  import opened Wire
  import opened PoolModel
  import opened System
  import opened Invariant
  import opened Induction
  import opened Safety
  import opened Termination
  import opened Drain
  import opened Progress
  import opened Return

  // ---- how a request is lost

  const ANY := Env(0, [], 0)

  /** The step by which a request at risk comes nearer to being lost: every completion the
      server can still get is queued, polled and handled first, one at a time, and the
      client goes on only when the thread has ended. */
  function Dawdle(c: ConnId, cn: Conn, sh: Shared): (a: Step)
  {
    if cn.sv.unacked > 0 then SAck
    else if cn.sv.stage.SSent? then SReturn
    else if cn.sv.polled > 0 then SHandle
    else if cn.sv.drained < BUDGET then SPoll(1)
    else Advance(c, cn, sh, ANY)
  }

  lemma ClientStep(c: ConnId, cn: Conn, sh: Shared, e: Env)
    requires Local(cn) && !cn.faulty && Busy(cn) && !Waiting(cn.cl.stage) && ToCome(cn) && !EndsSend(cn.cl.sq)
    ensures var a := Advance(c, cn, sh, e);
            Ordinary(a) && !a.SPoll? && !a.SPollEmpty? && !a.CExec? && Enabled(c, cn, sh, a) && !Apply(c, cn, sh, a).0.faulty
  {
    hide Local, PackRequest, ReqOf, SendRoom, RecvRoom;
    ClientAdvances(c, cn, sh, e);
  }

  lemma DawdleServer(c: ConnId, cn: Conn, sh: Shared)
    requires Local(cn) && !cn.faulty && AtRisk(cn) && !Ended(cn.sv)
    ensures var a := Dawdle(c, cn, sh);
            && Ordinary(a) && !a.SPollEmpty? && !a.CExec? && Enabled(c, cn, sh, a) && !Apply(c, cn, sh, a).0.faulty
            && (a.SPoll? ==> cn.sv.polled == 0 && a.n == 1 && Before(cn.sv.cq) > 0)
  {
    hide Shape, Content, CmdInv, Arrivals, Before, CanIssue, CanFinish, CanAdapter, CanHandler,
      DoIssue, DoFinish, DoAdapter, DoHandler, Load, Advance, GetU32;
    AskedLoad(cn);
  }

  lemma DawdleOnward(c: ConnId, cn: Conn, sh: Shared)
    requires ConnInv(c, cn, sh) && !cn.faulty && AtRisk(cn) && !Deaf(cn)
    ensures var a := Dawdle(c, cn, sh);
            && Ordinary(a) && !a.SPollEmpty? && !a.CExec? && Enabled(c, cn, sh, a) && !Apply(c, cn, sh, a).0.faulty
            && (a.SPoll? ==> cn.sv.polled == 0 && a.n == 1 && Before(cn.sv.cq) > 0)
  {
    hide Local, Mapping, Enabled, Apply, Arrivals, Before, Advance;
    AskedLoad(cn);
    if Ended(cn.sv) && cn.sv.unacked == 0 {
      ClientStep(c, cn, sh, ANY);
    } else if Ended(cn.sv) {
      AckStep(c, cn, sh);
    } else {
      DawdleServer(c, cn, sh);
    }
  }

  lemma AckStep(c: ConnId, cn: Conn, sh: Shared)
    requires !cn.broken && !cn.faulty && cn.sv.unacked > 0
    ensures Enabled(c, cn, sh, SAck) && !Apply(c, cn, sh, SAck).0.faulty
  {
  }

  lemma DawdleKeepsRisk(c: ConnId, cn: Conn, sh: Shared)
    requires ConnInv(c, cn, sh) && !cn.faulty && AtRisk(cn) && !Deaf(cn)
    ensures var a := Dawdle(c, cn, sh); Enabled(c, cn, sh, a) && AtRisk(Apply(c, cn, sh, a).0)
  {
    hide ConnInv, Enabled, Apply, Dawdle, Arrivals, Before, ToCome, Deaf;
    DawdleOnward(c, cn, sh);
    UnpolledStep(c, cn, sh, Dawdle(c, cn, sh));
  }

  ghost predicate LostBy(s: State, acts: seq<Act>, t: State, c: ConnId)
  {
    && Path(s, acts, t) && c in t.conns && !t.conns[c].faulty && Deaf(t.conns[c])
    && forall k :: 0 <= k < |acts| && acts[k].0 == c ==> Ordinary(acts[k].1)
  }

  lemma DawdleNext(s: State, c: ConnId)
    requires Inv(s) && c in s.conns && !s.conns[c].faulty && AtRisk(s.conns[c]) && !Deaf(s.conns[c])
    ensures var a := Dawdle(c, s.conns[c], s.sh);
            && Ordinary(a) && CanStep(s, c, a)
            && var m := Next(s, c, a);
               && Inv(m) && c in m.conns && !m.conns[c].faulty && AtRisk(m.conns[c])
               && Tally(m.conns[c]) == Tally(s.conns[c]) && Commands(m.conns[c]) == Commands(s.conns[c])
               && Work(c, m.conns[c], m.sh) < Work(c, s.conns[c], s.sh)
  {
    hide ConnInv, SharedInv, Enabled, Apply, Dawdle, AtRisk, Deaf, Tally, Commands, Work, Ordinary;
    var cn, a := s.conns[c], Dawdle(c, s.conns[c], s.sh);
    DawdleOnward(c, cn, s.sh);
    DawdleKeepsRisk(c, cn, s.sh);
    TallyStep(c, cn, s.sh, a);
    WorkDrops(c, cn, s.sh, a);
    NextKeeps(s, c, a);
  }

  /** A request at risk can be lost. */
  lemma {:induction false} CanLose(s: State, c: ConnId) returns (acts: seq<Act>, t: State)
    requires Inv(s) && c in s.conns && !s.conns[c].faulty && AtRisk(s.conns[c])
    ensures LostBy(s, acts, t, c) && Inv(t)
    ensures forall k :: 0 <= k < |acts| ==> acts[k].0 == c
    ensures Tally(t.conns[c]) == Tally(s.conns[c]) && Commands(t.conns[c]) == Commands(s.conns[c])
    decreases Work(c, s.conns[c], s.sh)
  {
    hide Inv, Next, CanStep, Dawdle, AtRisk, Deaf, Tally, Commands, Work, Ordinary;
    if Deaf(s.conns[c]) {
      acts, t := [], s;
    } else {
      DawdleNext(s, c);
      var a := Dawdle(c, s.conns[c], s.sh);
      var rest;
      rest, t := CanLose(Next(s, c, a), c);
      acts := [(c, a)] + rest;
      assert acts[1..] == rest && acts[0] == (c, a);
      assert Path(s, acts, t);
      assert forall k :: 0 < k < |acts| ==> acts[k] == rest[k - 1];
    }
  }

  /** The exact condition under which a command can lose its request to the end of the
      server's thread, while nothing fails. */
  lemma RequestIsLost(s: State, c: ConnId)
    requires Reachable(s) && c in s.conns && !s.conns[c].faulty
    ensures (exists acts, t :: LostBy(s, acts, t, c)) <==> AtRisk(s.conns[c])
  {
    hide Reachable, Inv, Path, AtRisk, Deaf, Ordinary, Tally, Commands;
    ReachableInv(s);
    if AtRisk(s.conns[c]) {
      var acts, t := CanLose(s, c);
      assert LostBy(s, acts, t, c);
    } else {
      forall acts, t | LostBy(s, acts, t, c) ensures false { SafeForever(s, acts, t, c); }
    }
  }

  /** A command whose request is not at risk must return, as long as nothing fails: under
      any interleaving its connection takes no more steps than its work, and where it can
      take none, the lock being free, the command is over. */
  lemma CommandMustReturn(s: State, acts: seq<Act>, t: State, c: ConnId)
    requires Reachable(s) && c in s.conns && !AtRisk(s.conns[c]) && Path(s, acts, t)
    requires forall k :: 0 <= k < |acts| && acts[k].0 == c ==> Ordinary(acts[k].1)
    requires c in t.conns && !t.conns[c].faulty
    ensures StepsOf(acts, c) + Work(c, t.conns[c], t.sh) <= Work(c, s.conns[c], s.sh)
    ensures t.sh.pool.lock.Unlocked? && (forall a :: Ordinary(a) ==> !CanStep(t, c, a)) ==> !Busy(t.conns[c])
  {
    hide Reachable, Inv, Path, AtRisk, Deaf, Ordinary, CanStep, Work, Advance;
    ReachableInv(s);
    CommandTerminates(s, acts, t, c);
    SafeForever(s, acts, t, c);
    PathReachable(s, acts, t);
    if Busy(t.conns[c]) { NoDeadlock(t, c, ANY); }
  }

  // ---- the first 32 commands

  predicate TallyBound(cn: Conn) { Tally(cn) <= 2 * Commands(cn) }

  lemma BeginTally(c: ConnId, cn: Conn, sh: Shared, a: Step)
    requires Local(cn) && CanIssue(c, cn, sh, a) && a.Begin?
    ensures var r := DoIssue(c, cn, sh, a).0;
            && r.sv == cn.sv && !Asked(cn)
            && if r.cl.stage.CBegun? then
                 ToCome(r) && !Arrived(r) && Tally(r) == Tally(cn) + 2 && Commands(r) == Commands(cn) + 1
               else Tally(r) == Tally(cn) && Commands(r) == Commands(cn)
  {
    hide CmdInv, Credits, GoodTrace, LastIssued, LastReplied, HandlerHas, IssuedIn;
  }

  lemma ClosedStays(c: ConnId, cn: Conn, sh: Shared, a: Step)
    requires ConnInv(c, cn, sh) && Enabled(c, cn, sh, a) && cn.cl.stage.CClosed?
    ensures Apply(c, cn, sh, a).0.cl.stage.CClosed?
  {
    hide Local, Mapping, DoAdapter, DoServer, DoHandler, CanAdapter, CanServer, CanHandler;
    if ClientAdapter(a) {
      AdapterFrame(c, cn, sh, a);
    } else if Handlers(a) {
      HandlerStage(c, cn, sh, a);
    } else if !Issues(a) && !Finishes(a) {
      ServerQuiet(c, cn, sh, a);
    }
  }

  lemma WriteTally(c: ConnId, cn: Conn, sh: Shared, a: Step)
    requires CanFinish(c, cn, sh, a) && a.AppWrite?
    ensures SameTally(cn, DoFinish(c, cn, sh, a).0)
  {
  }

  /** A failure that the environment injects is one, unless the connection is closed. */
  lemma InjectedIsFault(c: ConnId, cn: Conn, sh: Shared, a: Step)
    requires Credits(cn) && Enabled(c, cn, sh, a) && !Ordinary(a) && !a.Begin? && !a.AppWrite? && !cn.cl.stage.CClosed?
    ensures Apply(c, cn, sh, a).0.faulty
  {
    hide Load, Posts;
  }

  lemma BoundStep(c: ConnId, cn: Conn, sh: Shared, a: Step)
    requires ConnInv(c, cn, sh) && Enabled(c, cn, sh, a)
    requires !cn.cl.stage.CClosed? && TallyBound(cn) && !Apply(c, cn, sh, a).0.faulty
    ensures TallyBound(Apply(c, cn, sh, a).0)
  {
    hide CmdInv, Shape, Content, Credits, Mapping, Tally, Commands, DoIssue, DoFinish, DoAdapter, DoServer, DoHandler,
      CanIssue, CanFinish, CanAdapter, CanServer, CanHandler;
    if a.Begin? {
      BeginTally(c, cn, sh, a);
    } else if a.AppWrite? {
      WriteTally(c, cn, sh, a);
    } else if Ordinary(a) {
      TallyStep(c, cn, sh, a);
    } else {
      InjectedIsFault(c, cn, sh, a);
    }
  }

  lemma BoundNext(s: State, d: ConnId, a: Step, c: ConnId)
    requires Inv(s) && CanStep(s, d, a) && c in s.conns
    requires var t := Next(s, d, a); !t.conns[c].faulty && !t.conns[c].cl.stage.CClosed?
    requires !s.conns[c].faulty && !s.conns[c].cl.stage.CClosed? ==> TallyBound(s.conns[c])
    ensures TallyBound(Next(s, d, a).conns[c])
  {
    hide ConnInv, SharedInv, Enabled, Apply, TallyBound;
    if d == c {
      if s.conns[c].cl.stage.CClosed? { ClosedStays(c, s.conns[c], s.sh, a); }
      NextOnward(s, d, a, c);
      BoundStep(c, s.conns[c], s.sh, a);
    }
  }

  lemma {:induction false} RunBound(run: seq<State>, i: nat, c: ConnId)
    requires IsRun(run) && i < |run| && c in run[i].conns
    requires !run[i].conns[c].faulty && !run[i].conns[c].cl.stage.CClosed?
    ensures TallyBound(run[i].conns[c])
  {
    hide Next, CanStep, TallyBound, SharedInv, ConnInv;
    if i == 0 {
      var req, rsp :| run[0].conns[c] == NewConn(req, rsp);
      NewBound(req, rsp);
    } else {
      assert OneStep(run[i - 1], run[i - 1 + 1]);
      var d, a :| CanStep(run[i - 1], d, a) && run[i] == Next(run[i - 1], d, a);
      NextConns(run[i - 1], d, a);
      RunInv(run, i - 1);
      if !run[i - 1].conns[c].faulty && !run[i - 1].conns[c].cl.stage.CClosed? { RunBound(run, i - 1, c); }
      BoundNext(run[i - 1], d, a, c);
    }
  }

  lemma NewBound(req: Buffer, rsp: Buffer)
    ensures TallyBound(NewConn(req, rsp)) && Tally(NewConn(req, rsp)) == 2 && Commands(NewConn(req, rsp)) == 1
  {
  }

  lemma RiskTally(cn: Conn)
    requires Local(cn) && AtRisk(cn)
    ensures Tally(cn) >= BUDGET + 2
  {
    hide Shape, Content, CmdInv;
    AskedLoad(cn);
  }

  /** A command costs the server two completions, so the first 32 commands of a connection
      that meets no failure, its open included, are safe whatever the interleaving. */
  lemma FirstCommands(s: State, c: ConnId)
    requires Reachable(s) && c in s.conns && !s.conns[c].faulty && 2 * Commands(s.conns[c]) <= BUDGET
    ensures !AtRisk(s.conns[c]) && !Late(s.conns[c]) && !Deaf(s.conns[c])
  {
    hide OneStep, Initial, Inv, AtRisk, Late, Deaf, Tally, Commands, Local, Mapping;
    var run :| IsRun(run) && run[|run| - 1] == s;
    RunInv(run, |run| - 1);
    SafeOnes(s, c, run);
  }

  lemma SafeOnes(s: State, c: ConnId, run: seq<State>)
    requires Inv(s) && IsRun(run) && run[|run| - 1] == s && c in s.conns && !s.conns[c].faulty
    requires 2 * Commands(s.conns[c]) <= BUDGET
    ensures !AtRisk(s.conns[c]) && !Late(s.conns[c]) && !Deaf(s.conns[c])
  {
    hide OneStep, Initial, SharedInv, Local, Mapping, Tally, Commands, Arrivals, Before;
    DeafAtRisk(s.conns[c]);
    if Unpolled(s.conns[c]) {
      AskedLoad(s.conns[c]);
      RunBound(run, |run| - 1, c);
      if AtRisk(s.conns[c]) { RiskTally(s.conns[c]); }
    }
  }

  // ---- a failure-free run that ends the thread

  /** A path on which only c moves, except to let it have the lock, and nothing is injected. */
  ghost predicate Calm(s: State, acts: seq<Act>, t: State, c: ConnId)
  {
    && Path(s, acts, t) && Inv(t) && c in t.conns && !t.conns[c].faulty
    && forall k :: 0 <= k < |acts| ==>
         (Ordinary(acts[k].1) || acts[k].1.Begin?) && (acts[k].0 == c || InLock(acts[k].1))
  }

  lemma CalmConcat(s: State, acts: seq<Act>, m: State, more: seq<Act>, t: State, c: ConnId)
    requires Calm(s, acts, m, c) && Calm(m, more, t, c)
    ensures Calm(s, acts + more, t, c)
  {
    hide Inv, Path, Ordinary, InLock;
    PathConcat(s, acts, m, more, t);
  }

  lemma BeginNext(s: State, c: ConnId, cmd: Cmd) returns (acts: seq<Act>, m: State)
    requires Inv(s) && c in s.conns && !s.conns[c].faulty && CanBegin(s.conns[c].cl, cmd)
    ensures Calm(s, acts, m, c) && m.sh == s.sh
    ensures m.conns[c].cl.stage == CBegun(cmd) && ToCome(m.conns[c]) && !Arrived(m.conns[c])
    ensures Tally(m.conns[c]) == Tally(s.conns[c]) + 2 && Commands(m.conns[c]) == Commands(s.conns[c]) + 1
  {
    hide SharedInv, Local, Mapping, Tally, Commands, ToCome, Arrivals;
    m := Next(s, c, Begin(cmd, true));
    acts := [(c, Begin(cmd, true))];
    assert acts[1..] == [] && acts[0] == (c, Begin(cmd, true));
    assert Path(s, acts, m);
    NextKeeps(s, c, Begin(cmd, true));
    BeginTally(c, s.conns[c], s.sh, Begin(cmd, true));
  }

  /** While the tally is within the budget a new command is in time. */
  lemma BeginsInTime(cn: Conn)
    requires Local(cn) && ToCome(cn) && !Arrived(cn) && Tally(cn) <= BUDGET + 1
    ensures !Late(cn)
  {
    hide Shape, Content, CmdInv;
  }

  /** Where a command that began calmly can be taken. */
  lemma ReturnsCalmly(s: State, c: ConnId, e: Env) returns (acts: seq<Act>, t: State)
    requires Inv(s) && c in s.conns && !s.conns[c].faulty && s.conns[c].cl.stage.CBegun? && Hope(c, s.conns[c], s.sh, e)
    requires ToCome(s.conns[c]) && !Arrived(s.conns[c]) && Tally(s.conns[c]) <= BUDGET + 1
    ensures Calm(s, acts, t, c) && Returned(s.conns[c].cl.stage.cmd, t.conns[c])
    ensures Tally(t.conns[c]) == Tally(s.conns[c]) && Commands(t.conns[c]) == Commands(s.conns[c])
    ensures s.conns[c].cl.stage.cmd.Open? ==> t.sh == s.sh
  {
    hide SharedInv, Local, Mapping, Path, Hope, Late, Ordinary, InLock, Tally, Commands, ToCome, Arrivals, Returned;
    BeginsInTime(s.conns[c]);
    acts, t := CanReturn(s, c, e);
  }

  predicate IdleMapped(cn: Conn) { cn.cl.stage.CIdle? && cn.cl.mapped && !cn.faulty }

  lemma NoHopeNeeded(c: ConnId, cn: Conn, sh: Shared, e: Env)
    requires cn.cl.stage == CBegun(Commit) || cn.cl.stage == CBegun(Open)
    ensures Hope(c, cn, sh, e)
  {
  }

  lemma CommitOnce(s: State, c: ConnId) returns (acts: seq<Act>, t: State)
    requires Inv(s) && c in s.conns && IdleMapped(s.conns[c]) && Tally(s.conns[c]) < BUDGET
    ensures Calm(s, acts, t, c) && IdleMapped(t.conns[c])
    ensures Tally(t.conns[c]) == Tally(s.conns[c]) + 2 && Commands(t.conns[c]) == Commands(s.conns[c]) + 1
  {
    hide Inv, Calm, Tally, Commands, ToCome, Arrivals, Hope;
    var first, m := BeginNext(s, c, Commit);
    CalmInv(s, first, m, c);
    NoHopeNeeded(c, m.conns[c], m.sh, ANY);
    var rest;
    rest, t := ReturnsCalmly(m, c, ANY);
    CalmInv(m, rest, t, c);
    acts := first + rest;
    CalmConcat(s, first, m, rest, t, c);
  }

  lemma CalmInv(s: State, acts: seq<Act>, t: State, c: ConnId)
    requires Calm(s, acts, t, c)
    ensures Inv(t) && c in t.conns && !t.conns[c].faulty && Path(s, acts, t)
  {
  }

  lemma LoseNext(s: State, c: ConnId) returns (acts: seq<Act>, t: State)
    requires Inv(s) && c in s.conns && IdleMapped(s.conns[c]) && Tally(s.conns[c]) >= BUDGET
    ensures Calm(s, acts, t, c) && Deaf(t.conns[c])
    ensures Tally(t.conns[c]) == Tally(s.conns[c]) + 2 && Commands(t.conns[c]) == Commands(s.conns[c]) + 1
  {
    hide Inv, Path, Tally, Commands, ToCome, Arrivals, Before, Ordinary, Deaf, AtRisk;
    var first, m := BeginNext(s, c, Commit);
    BegunAtRisk(m.conns[c], m, c);
    var rest;
    rest, t := CanLose(m, c);
    acts := first + rest;
    assert Calm(m, rest, t, c);
    CalmConcat(s, first, m, rest, t, c);
  }

  lemma BegunAtRisk(cn: Conn, s: State, c: ConnId)
    requires Inv(s) && c in s.conns && s.conns[c] == cn
    requires cn.cl.stage.CBegun? && !Arrived(cn) && Tally(cn) >= BUDGET + 2
    ensures AtRisk(cn)
  {
    hide SharedInv, Shape, Content, CmdInv, Mapping;
    assert Local(cn);
    AskedLoad(cn);
  }

  /** Any mapped connection that has met no failure can, by committing again and again and
      without any failure, come to a command whose request finds the thread gone. */
  lemma {:induction false} WearsOut(s: State, c: ConnId) returns (acts: seq<Act>, t: State)
    requires Inv(s) && c in s.conns && IdleMapped(s.conns[c])
    ensures Calm(s, acts, t, c) && Deaf(t.conns[c])
    ensures Tally(t.conns[c]) - 2 * Commands(t.conns[c]) == Tally(s.conns[c]) - 2 * Commands(s.conns[c])
    ensures Tally(s.conns[c]) <= BUDGET + 1 ==> BUDGET + 2 <= Tally(t.conns[c]) <= BUDGET + 3
    decreases BUDGET - Tally(s.conns[c])
  {
    hide Inv, Calm, Tally, Commands, Deaf;
    if Tally(s.conns[c]) >= BUDGET {
      acts, t := LoseNext(s, c);
    } else {
      var first, m := CommitOnce(s, c);
      CalmInv(s, first, m, c);
      var rest;
      rest, t := WearsOut(m, c);
      acts := first + rest;
      CalmConcat(s, first, m, rest, t, c);
    }
  }

  lemma Opens(s: State, c: ConnId) returns (acts: seq<Act>, t: State)
    requires Initial(s) && c in s.conns
    ensures Calm(s, acts, t, c) && t.sh == s.sh && Returned(Open, t.conns[c])
    ensures Tally(t.conns[c]) == 2 && Commands(t.conns[c]) == 1
  {
    hide Inv, Calm, Tally, Commands, Arrivals, Hope, Returned;
    var req, rsp :| s.conns[c] == NewConn(req, rsp);
    NewBound(req, rsp);
    InitialInv(s);
    NewAsks(req, rsp);
    NoHopeNeeded(c, s.conns[c], s.sh, ANY);
    acts, t := ReturnsCalmly(s, c, ANY);
  }

  lemma MapsOnce(s: State, c: ConnId, e: Env, len: Len) returns (acts: seq<Act>, t: State)
    requires Inv(s) && c in s.conns && !s.conns[c].faulty && CanBegin(s.conns[c].cl, Map(len)) && Offers(s.sh, len, e)
    requires Tally(s.conns[c]) < BUDGET
    ensures Calm(s, acts, t, c) && IdleMapped(t.conns[c])
    ensures Tally(t.conns[c]) == Tally(s.conns[c]) + 2 && Commands(t.conns[c]) == Commands(s.conns[c]) + 1
  {
    hide Inv, Calm, Tally, Commands, ToCome, Arrivals, Hope, Offers;
    var begin, m := BeginNext(s, c, Map(len));
    CalmInv(s, begin, m, c);
    MapNeeds(c, m.conns[c], m.sh, e, len);
    var rest;
    rest, t := ReturnsCalmly(m, c, e);
    CalmInv(m, rest, t, c);
    acts := begin + rest;
    CalmConcat(s, begin, m, rest, t, c);
  }

  /** From the start: open, map, and then commits. */
  lemma GetsMapped(s: State, c: ConnId, e: Env, len: Len) returns (acts: seq<Act>, t: State)
    requires Initial(s) && c in s.conns && Offers(s.sh, len, e)
    ensures Calm(s, acts, t, c) && IdleMapped(t.conns[c])
    ensures Tally(t.conns[c]) == 4 && Commands(t.conns[c]) == 2
  {
    hide Initial, Inv, Calm, Tally, Commands, Offers;
    var open, m := Opens(s, c);
    CalmInv(s, open, m, c);
    var rest;
    rest, t := MapsOnce(m, c, e, len);
    CalmConcat(s, open, m, rest, t, c);
    acts := open + rest;
  }

  lemma NewAsks(req: Buffer, rsp: Buffer)
    ensures ToCome(NewConn(req, rsp)) && !Arrived(NewConn(req, rsp))
  {
  }

  lemma MapNeeds(c: ConnId, cn: Conn, sh: Shared, e: Env, len: Len)
    requires cn.cl.stage == CBegun(Map(len)) && Offers(sh, len, e)
    ensures Hope(c, cn, sh, e)
  {
  }

  lemma {:induction false} PathReachable(s: State, acts: seq<Act>, t: State)
    requires Reachable(s) && Path(s, acts, t)
    ensures Reachable(t)
    decreases |acts|
  {
    hide Next, CanStep, Initial;
    if acts != [] {
      var run :| IsRun(run) && run[|run| - 1] == s;
      var m := Next(s, acts[0].0, acts[0].1);
      var more := run + [m];
      assert OneStep(s, m);
      forall i | 0 <= i < |more| - 1 ensures OneStep(more[i], more[i + 1]) {
        if i < |run| - 1 { assert OneStep(run[i], run[i + 1]); }
      }
      assert IsRun(more) && more[|more| - 1] == m;
      PathReachable(m, acts[1..], t);
    }
  }

  /** The bound is met: from every initial state that offers a map what it needs, a run
      without any failure ends the server's thread and loses the 33rd command of the
      connection, which then waits for ever. */
  lemma ThreadCanEnd(s: State, c: ConnId, e: Env, len: Len)
    requires Initial(s) && c in s.conns && Offers(s.sh, len, e)
    ensures exists acts, t ::
              Calm(s, acts, t, c) && Reachable(t) && Deaf(t.conns[c]) && 2 * Commands(t.conns[c]) == BUDGET + 2
  {
    hide Initial, Inv, Calm, Tally, Commands, Deaf, Offers, Reachable;
    var first, m := GetsMapped(s, c, e, len);
    CalmInv(s, first, m, c);
    var rest, t := WearsOut(m, c);
    CalmConcat(s, first, m, rest, t, c);
    CalmInv(s, first + rest, t, c);
    StartReachable(s);
    PathReachable(s, first + rest, t);
  }

  // ---- every later command can be lost too

  /** The next step of an idle connection's server towards an empty poll. */
  function Settle(sv: Server): (a: Step)
  {
    if sv.unacked > 0 then SAck
    else if sv.stage.SSent? then SReturn
    else if sv.polled > 0 then SHandle
    else if sv.cq != [] then SPoll(1)
    else SPollEmpty
  }

  predicate AtEase(cn: Conn) { cn.cl.stage.CIdle? && !cn.faulty && Tally(cn) < BUDGET }

  lemma SettleStep(c: ConnId, cn: Conn, sh: Shared)
    requires Local(cn) && AtEase(cn) && Tally(cn) > 0
    ensures var a := Settle(cn.sv);
            && Ordinary(a) && Enabled(c, cn, sh, a)
            && var (r, sh') := Apply(c, cn, sh, a);
               r.cl == cn.cl && !r.faulty && sh' == sh && (a.SPollEmpty? ==> Tally(cn) == cn.sv.drained)
  {
    hide Local, Arrivals, DoSHandle, Tally, CanIssue, CanFinish, CanAdapter, CanHandler,
      DoIssue, DoFinish, DoAdapter, DoHandler, DoSDecode, DoSRepost, DoSPack, DoSPostSend, DoSDeliver;
    IdleServer(cn);
    if Settle(cn.sv).SHandle? { IdleHandles(cn); }
  }

  lemma IdleServer(cn: Conn)
    requires Local(cn) && cn.cl.stage.CIdle? && !cn.faulty
    ensures cn.sv.sq == 0 && Arrivals(cn.sv.cq) == 0 && !Active(cn.sv.stage) && !cn.broken && !ToCome(cn)
    ensures 0 <= Tally(cn) == Seen(cn.sv) && cn.sv.polled <= |cn.sv.cq| && cn.sv.polled <= cn.sv.drained
  {
    hide CmdInv, GoodTrace, LastIssued, LastReplied, HandlerHas;
  }

  lemma SettledTally(s: State, c: ConnId)
    requires Inv(s) && c in s.conns && AtEase(s.conns[c])
    ensures Tally(s.conns[c]) >= 0
  {
    hide SharedInv, Local, Mapping, Tally;
    IdleServer(s.conns[c]);
  }

  lemma IdleHandles(cn: Conn)
    requires CanHandle(cn.sv) && Arrivals(cn.sv.cq) == 0
    ensures DoSHandle(cn).cl == cn.cl && DoSHandle(cn).faulty == cn.faulty
  {
  }

  lemma SettleNext(s: State, c: ConnId)
    requires Inv(s) && c in s.conns && AtEase(s.conns[c]) && Tally(s.conns[c]) > 0
    ensures var a := Settle(s.conns[c].sv);
            && Ordinary(a) && CanStep(s, c, a)
            && var m := Next(s, c, a);
               && Inv(m) && c in m.conns && m.sh == s.sh && m.conns[c].cl == s.conns[c].cl && AtEase(m.conns[c])
               && Commands(m.conns[c]) == Commands(s.conns[c])
               && Work(c, m.conns[c], m.sh) < Work(c, s.conns[c], s.sh)
  {
    hide SharedInv, Local, Mapping, Enabled, Apply, Tally, Commands, Work, Ordinary, Settle;
    var cn, a := s.conns[c], Settle(s.conns[c].sv);
    SettleStep(c, cn, s.sh);
    TallyStep(c, cn, s.sh, a);
    DrainedCounts(cn);
    WorkDrops(c, cn, s.sh, a);
    NextKeeps(s, c, a);
  }

  lemma DrainedCounts(cn: Conn)
    ensures cn.sv.drained >= 0
  {
  }

  /** Between two commands the server can come to an empty poll. */
  lemma {:induction false} Settles(s: State, c: ConnId) returns (acts: seq<Act>, t: State)
    requires Inv(s) && c in s.conns && AtEase(s.conns[c])
    ensures Calm(s, acts, t, c) && t.sh == s.sh && t.conns[c].cl == s.conns[c].cl
    ensures Tally(t.conns[c]) == 0 && Commands(t.conns[c]) == Commands(s.conns[c])
    decreases Work(c, s.conns[c], s.sh)
  {
    hide Inv, Next, CanStep, Settle, Tally, Commands, Work, Ordinary;
    if Tally(s.conns[c]) <= 0 {
      SettledTally(s, c);
      acts, t := [], s;
    } else {
      SettleNext(s, c);
      var a := Settle(s.conns[c].sv);
      var rest;
      rest, t := Settles(Next(s, c, a), c);
      acts := [(c, a)] + rest;
      assert acts[1..] == rest && acts[0] == (c, a);
      assert Path(s, acts, t);
      assert forall k :: 0 < k < |acts| ==> acts[k] == rest[k - 1];
    }
  }

  /** What IdleMapped leaves of being at ease. */
  lemma EaseOf(s: State, c: ConnId)
    requires Inv(s) && c in s.conns && s.conns[c].cl.stage.CIdle? && !s.conns[c].faulty && Tally(s.conns[c]) < BUDGET
    ensures AtEase(s.conns[c])
  {
  }

  lemma {:induction false} MappedAfter(s: State, c: ConnId, e: Env, len: Len, j: nat) returns (acts: seq<Act>, t: State)
    requires Initial(s) && c in s.conns && Offers(s.sh, len, e) && j >= 2
    ensures Calm(s, acts, t, c) && IdleMapped(t.conns[c])
    ensures Tally(t.conns[c]) == 0 && Commands(t.conns[c]) == j
    decreases j
  {
    hide Initial, Inv, Calm, Tally, Commands, Offers;
    var first, m;
    if j == 2 {
      first, m := GetsMapped(s, c, e, len);
    } else {
      var before, n := MappedAfter(s, c, e, len, j - 1);
      CalmInv(s, before, n, c);
      var commit;
      commit, m := CommitOnce(n, c);
      first := before + commit;
      CalmConcat(s, before, n, commit, m, c);
    }
    CalmInv(s, first, m, c);
    EaseOf(m, c);
    var rest;
    rest, t := Settles(m, c);
    CalmInv(m, rest, t, c);
    acts := first + rest;
    CalmConcat(s, first, m, rest, t, c);
  }

  lemma MappedLate(s: State, c: ConnId, e: Env, len: Len) returns (acts: seq<Act>, t: State)
    requires Initial(s) && c in s.conns && Offers(s.sh, len, e)
    ensures Calm(s, acts, t, c) && IdleMapped(t.conns[c])
    ensures Tally(t.conns[c]) == 2 && Commands(t.conns[c]) == 2
  {
    hide Initial, Inv, Calm, Tally, Commands, Offers;
    var open, m := Opens(s, c);
    CalmInv(s, open, m, c);
    EaseOf(m, c);
    var settle, n := Settles(m, c);
    CalmInv(m, settle, n, c);
    CalmConcat(s, open, m, settle, n, c);
    var rest;
    rest, t := MapsOnce(n, c, e, len);
    acts := open + settle + rest;
    CalmConcat(s, open + settle, n, rest, t, c);
  }

  /** The k-th command of c has found the thread gone, and nothing has failed. */
  ghost predicate LosesCommand(s: State, acts: seq<Act>, t: State, c: ConnId, k: nat)
  {
    Path(s, acts, t) && c in t.conns && !t.conns[c].faulty && Deaf(t.conns[c]) && Commands(t.conns[c]) == k
  }

  lemma LosesLater(s: State, c: ConnId, e: Env, len: Len, k: nat) returns (acts: seq<Act>, t: State)
    requires Initial(s) && c in s.conns && Offers(s.sh, len, e) && 2 * k >= BUDGET + 2
    ensures LosesCommand(s, acts, t, c, k)
  {
    hide Initial, Inv, Calm, Tally, Commands, Deaf, Offers, Path;
    var first, m;
    var j := k - BUDGET / 2 - 1;
    if j == 0 {
      first, m := GetsMapped(s, c, e, len);
    } else if j == 1 {
      first, m := MappedLate(s, c, e, len);
    } else {
      first, m := MappedAfter(s, c, e, len, j);
    }
    CalmInv(s, first, m, c);
    var rest;
    rest, t := WearsOut(m, c);
    acts := first + rest;
    CalmConcat(s, first, m, rest, t, c);
    CalmInv(s, acts, t, c);
  }

  /** Which commands can be lost, in a number the client knows: the k-th command of a
      connection, its open included, can be lost in a run without any failure if and only
      if k is at least 33. */
  lemma KthCommand(s: State, c: ConnId, e: Env, len: Len, k: nat)
    requires Initial(s) && c in s.conns && Offers(s.sh, len, e)
    ensures (exists acts, t :: LosesCommand(s, acts, t, c, k)) <==> k >= 33
  {
    hide Initial, Inv, Path, Tally, Commands, Deaf, Offers, AtRisk, Late, Reachable;
    if k >= 33 {
      var acts, t := LosesLater(s, c, e, len, k);
    } else {
      StartReachable(s);
      forall acts, t | LosesCommand(s, acts, t, c, k) ensures false {
        PathReachable(s, acts, t);
        FirstCommands(t, c);
      }
    }
  }

  lemma StartReachable(s: State)
    requires Initial(s)
    ensures Reachable(s)
  {
    hide Initial;
    assert IsRun([s]) && [s][|[s]| - 1] == s;
  }
}
