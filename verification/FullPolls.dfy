/** The end of the server's thread when every poll returns as many completions as it can:
    a batch of 16, or all that are queued. */
module FullPolls {
  import opened Wire
  import opened PoolModel
  import opened System
  import opened Invariant
  import opened Induction
  import opened Safety
  import opened Termination
  import opened Drain
  import opened Progress
  import opened ThreadEnd

  function FullSize(sv: Server): (n: nat) { if |sv.cq| < BATCH then |sv.cq| else BATCH }

  predicate Full(cn: Conn, a: Step) { a.SPoll? ==> a.n == FullSize(cn.sv) }

  /** Every poll of c along the path is full. */
  ghost predicate PollsFully(s: State, acts: seq<Act>, c: ConnId)
    decreases |acts|
  {
    acts == [] ||
    (&& CanStep(s, acts[0].0, acts[0].1)
     && (acts[0].0 == c ==> Full(s.conns[c], acts[0].1))
     && PollsFully(Next(s, acts[0].0, acts[0].1), acts[1..], c))
  }

  /** Before its request has arrived a command is at risk as ever, because completions can
      come one at a time; once it has, only whole batches can go before it. */
  predicate AtFullRisk(cn: Conn)
  {
    && Unpolled(cn)
    && if Arrived(cn) then cn.sv.drained + BATCH * ((Before(cn.sv.cq) - cn.sv.polled) / BATCH) >= BUDGET
       else MostAhead(cn) >= BUDGET
  }

  ghost predicate LostFully(s: State, acts: seq<Act>, t: State, c: ConnId)
  {
    LostBy(s, acts, t, c) && PollsFully(s, acts, c)
  }

  // ---- a request that is not at risk is not lost

  lemma FullBatches(drained: int, p: int)
    requires p >= 0
    ensures drained + BATCH * (p / BATCH) <= drained + p
    ensures p >= BATCH ==> BATCH + BATCH * ((p - BATCH) / BATCH) == BATCH * (p / BATCH)
  {
  }

  lemma FullStep(c: ConnId, cn: Conn, sh: Shared, a: Step)
    requires ConnInv(c, cn, sh) && Unpolled(cn) && !AtFullRisk(cn) && Enabled(c, cn, sh, a) && Full(cn, a)
    requires !Apply(c, cn, sh, a).0.faulty
    ensures !AtFullRisk(Apply(c, cn, sh, a).0)
  {
    hide ConnInv, Apply, CanIssue, CanFinish, CanAdapter, CanHandler, ToCome, Arrivals, Before;
    var r := Apply(c, cn, sh, a).0;
    UnpolledStep(c, cn, sh, a);
    if Unpolled(r) {
      FullBatches(cn.sv.drained, Before(cn.sv.cq) - cn.sv.polled);
      FullBatches(r.sv.drained, Before(r.sv.cq) - r.sv.polled);
    }
  }

  lemma FullSafeStep(c: ConnId, cn: Conn, sh: Shared, a: Step)
    requires ConnInv(c, cn, sh) && !AtFullRisk(cn) && Enabled(c, cn, sh, a) && Ordinary(a) && Full(cn, a)
    requires !Apply(c, cn, sh, a).0.faulty
    ensures !AtFullRisk(Apply(c, cn, sh, a).0)
  {
    hide ConnInv, Enabled, Apply, ToCome, Arrived, Full;
    if Unpolled(cn) {
      FullStep(c, cn, sh, a);
    } else if Asked(cn) {
      PolledStep(c, cn, sh, a);
    } else {
      NotAsked(c, cn, sh, a);
    }
  }

  lemma FullSafeNext(s: State, d: ConnId, a: Step, c: ConnId)
    requires Inv(s) && CanStep(s, d, a) && c in s.conns && !AtFullRisk(s.conns[c])
    requires d == c ==> Ordinary(a) && Full(s.conns[c], a)
    requires !Next(s, d, a).conns[c].faulty
    ensures !AtFullRisk(Next(s, d, a).conns[c])
  {
    hide ConnInv, SharedInv, Enabled, Apply, AtFullRisk, Ordinary, Full;
    if d == c { FullSafeStep(c, s.conns[c], s.sh, a); }
  }

  lemma DeafAtFullRisk(cn: Conn)
    ensures Deaf(cn) ==> AtFullRisk(cn)
  {
  }

  lemma {:induction false} FullSafeForever(s: State, acts: seq<Act>, t: State, c: ConnId)
    requires Inv(s) && c in s.conns && !AtFullRisk(s.conns[c]) && LostFully(s, acts, t, c)
    ensures false
    decreases |acts|
  {
    hide Inv, Next, CanStep, AtFullRisk, Deaf, Ordinary, Full;
    if acts == [] {
      DeafAtFullRisk(t.conns[c]);
    } else {
      var d, a := acts[0].0, acts[0].1;
      var m := Next(s, d, a);
      NextConns(s, d, a);
      if m.conns[c].faulty { PathFaulty(m, acts[1..], t, c); }
      FullSafeNext(s, d, a, c);
      NextKeeps(s, d, a);
      assert forall k :: 0 <= k < |acts[1..]| ==> acts[1..][k] == acts[k + 1];
      FullSafeForever(m, acts[1..], t, c);
    }
  }

  // ---- a request at risk can be lost

  function DawdleFully(c: ConnId, cn: Conn, sh: Shared): (a: Step)
  {
    if cn.sv.stage.SSent? then SReturn
    else if cn.sv.polled > 0 then SHandle
    else if cn.sv.drained < BUDGET then (if cn.sv.cq != [] then SPoll(FullSize(cn.sv)) else SAck)
    else Advance(c, cn, sh, ANY)
  }

  lemma DawdleFullyServer(c: ConnId, cn: Conn, sh: Shared)
    requires Local(cn) && !cn.faulty && AtFullRisk(cn) && !Ended(cn.sv)
    ensures var a := DawdleFully(c, cn, sh);
            && Ordinary(a) && !a.SPollEmpty? && !a.CExec? && Full(cn, a)
            && Enabled(c, cn, sh, a) && !Apply(c, cn, sh, a).0.faulty
            && (a.SPoll? ==> cn.sv.polled == 0 && a.n <= Before(cn.sv.cq))
  {
    hide Shape, Content, CmdInv, Arrivals, Before, CanIssue, CanFinish, CanAdapter, CanHandler,
      DoIssue, DoFinish, DoAdapter, DoHandler, Load, Advance, GetU32;
    AskedLoad(cn);
    FullBatches(cn.sv.drained, Before(cn.sv.cq) - cn.sv.polled);
  }

  lemma DawdleFullyOnward(c: ConnId, cn: Conn, sh: Shared)
    requires ConnInv(c, cn, sh) && !cn.faulty && AtFullRisk(cn) && !Deaf(cn)
    ensures var a := DawdleFully(c, cn, sh);
            && Ordinary(a) && !a.SPollEmpty? && !a.CExec? && Full(cn, a)
            && Enabled(c, cn, sh, a) && !Apply(c, cn, sh, a).0.faulty
            && (a.SPoll? ==> cn.sv.polled == 0 && a.n <= Before(cn.sv.cq))
  {
    hide Local, Mapping, Enabled, Apply, Arrivals, Before, Advance;
    AskedLoad(cn);
    if Ended(cn.sv) {
      ClientStep(c, cn, sh, ANY);
    } else {
      DawdleFullyServer(c, cn, sh);
    }
  }

  lemma DawdleKeepsFullRisk(c: ConnId, cn: Conn, sh: Shared)
    requires ConnInv(c, cn, sh) && !cn.faulty && AtFullRisk(cn) && !Deaf(cn)
    ensures var a := DawdleFully(c, cn, sh); Enabled(c, cn, sh, a) && AtFullRisk(Apply(c, cn, sh, a).0)
  {
    hide ConnInv, Enabled, Apply, DawdleFully, Arrivals, Before, ToCome, Deaf;
    var a := DawdleFully(c, cn, sh);
    DawdleFullyOnward(c, cn, sh);
    UnpolledStep(c, cn, sh, a);
    FullBatches(cn.sv.drained, Before(cn.sv.cq) - cn.sv.polled);
  }

  lemma DawdleFullyNext(s: State, c: ConnId)
    requires Inv(s) && c in s.conns && !s.conns[c].faulty && AtFullRisk(s.conns[c]) && !Deaf(s.conns[c])
    ensures var a := DawdleFully(c, s.conns[c], s.sh);
            && Ordinary(a) && Full(s.conns[c], a) && CanStep(s, c, a)
            && var m := Next(s, c, a);
               && Inv(m) && c in m.conns && !m.conns[c].faulty && AtFullRisk(m.conns[c])
               && Work(c, m.conns[c], m.sh) < Work(c, s.conns[c], s.sh)
  {
    hide ConnInv, SharedInv, Enabled, Apply, DawdleFully, AtFullRisk, Deaf, Work, Ordinary, Full;
    var cn, a := s.conns[c], DawdleFully(c, s.conns[c], s.sh);
    DawdleFullyOnward(c, cn, s.sh);
    DawdleKeepsFullRisk(c, cn, s.sh);
    WorkDrops(c, cn, s.sh, a);
    NextKeeps(s, c, a);
  }

  lemma {:induction false} CanLoseFully(s: State, c: ConnId) returns (acts: seq<Act>, t: State)
    requires Inv(s) && c in s.conns && !s.conns[c].faulty && AtFullRisk(s.conns[c])
    ensures LostFully(s, acts, t, c)
    decreases Work(c, s.conns[c], s.sh)
  {
    hide Inv, Next, CanStep, DawdleFully, AtFullRisk, Deaf, Work, Ordinary, Full;
    if Deaf(s.conns[c]) {
      acts, t := [], s;
    } else {
      DawdleFullyNext(s, c);
      var a := DawdleFully(c, s.conns[c], s.sh);
      var rest;
      rest, t := CanLoseFully(Next(s, c, a), c);
      acts := [(c, a)] + rest;
      assert acts[1..] == rest && acts[0] == (c, a);
      assert Path(s, acts, t) && PollsFully(s, acts, c);
      assert forall k :: 0 < k < |acts| ==> acts[k] == rest[k - 1];
    }
  }

  /** The exact condition under which a command can lose its request, while nothing fails
      and every poll is full. */
  lemma RequestIsLostFully(s: State, c: ConnId)
    requires Reachable(s) && c in s.conns && !s.conns[c].faulty
    ensures (exists acts, t :: LostFully(s, acts, t, c)) <==> AtFullRisk(s.conns[c])
  {
    hide Reachable, Inv, Path, PollsFully, AtFullRisk, Deaf, Ordinary, LostBy;
    ReachableInv(s);
    if AtFullRisk(s.conns[c]) {
      var acts, t := CanLoseFully(s, c);
    } else {
      forall acts, t | LostFully(s, acts, t, c) ensures false { FullSafeForever(s, acts, t, c); }
    }
  }
}
