/** Connection set-up on the client (rpmem.c): the connection-manager thread and its event
    handlers, and the thread in rpmem_open that waits for them. */
module Setup {

  datatype FileState = Init | Error | Established | Disconnected

  /** The calls of rpmem_addr_handler, in order; one of them may fail. */
  datatype AddrCall = ResolveRoute | AllocPd | RegRsp | RegReq | MakeChannel | MakeCq | ArmCq | NoFailure

  function Rank(f: AddrCall): (n: nat)
  {
    match f
    case ResolveRoute => 0
    case AllocPd => 1
    case RegRsp => 2
    case RegReq => 3
    case MakeChannel => 4
    case MakeCq => 5
    case ArmCq => 6
    case NoFailure => 7
  }

  datatype Event =
    | AddrResolved(fails: AddrCall)
    | RouteResolved(qpOk: bool, connectOk: bool)
    | EstablishedEvent
    | ErrorEvent       // ADDR_ERROR, ROUTE_ERROR, CONNECT_ERROR, UNREACHABLE, REJECTED, or unexpected
    | DisconnectEvent  // DISCONNECTED, ADDR_CHANGE, TIMEWAIT_EXIT
    | NoEvent          // rdma_get_cm_event fails

  datatype Opener = WaitingConnect | WokenConnect | PostedRecv | GaveUp

  datatype Move = Cm(e: Event) | OpenWakes | OpenChecks

  // ---- what a sequence of handled events means

  predicate RouteFails(e: Event) { e.RouteResolved? && !(e.qpOk && e.connectOk) }
  predicate AddrFails(e: Event) { e.AddrResolved? && e.fails != NoFailure }

  predicate Routed(log: seq<Event>) { exists e :: e in log && e.RouteResolved? }
  predicate RouteFailed(log: seq<Event>) { exists e :: e in log && RouteFails(e) }
  predicate AddrFailed(log: seq<Event>) { exists e :: e in log && AddrFails(e) }
  predicate Connected(log: seq<Event>) { EstablishedEvent in log }

  predicate Closed(log: seq<Event>) { ErrorEvent in log || DisconnectEvent in log }

  /** A route step failed, or the thread got no event before ESTABLISHED. */
  predicate Abandoned(log: seq<Event>) { RouteFailed(log) || (NoEvent in log && !Connected(log)) }

  /** No event was got, or its handler returned non-zero, and the thread exits. */
  predicate Ends(e: Event) { AddrFails(e) || RouteFails(e) || e.ErrorEvent? || e.DisconnectEvent? || e.NoEvent? }

  /** The handler wakes the opening thread. */
  predicate Posts(e: Event) { AddrFails(e) || e.EstablishedEvent? || e.ErrorEvent? || e.DisconnectEvent? }

  function StateAfter(state: FileState, e: Event): (r: FileState)
  {
    match e
    case EstablishedEvent => Established
    case ErrorEvent => Error
    case DisconnectEvent => Disconnected
    case _ => state
  }

  lemma Appended(log: seq<Event>, e: Event)
    ensures Routed(log + [e]) <==> Routed(log) || e.RouteResolved?
    ensures RouteFailed(log + [e]) <==> RouteFailed(log) || RouteFails(e)
    ensures AddrFailed(log + [e]) <==> AddrFailed(log) || AddrFails(e)
    ensures Connected(log + [e]) <==> Connected(log) || e.EstablishedEvent?
    ensures Closed(log + [e]) <==> Closed(log) || e.ErrorEvent? || e.DisconnectEvent?
  {
    assert e in log + [e];
    assert forall x :: x in log ==> x in log + [e];
  }

  /** The events are, in order, some of those that the script offers. */
  predicate Offered(events: seq<Event>, script: seq<Move>)
  {
    || events == []
    || (script != [] && Offered(events, script[..|script| - 1]))
    || (script != [] && script[|script| - 1] == Cm(events[|events| - 1])
        && Offered(events[..|events| - 1], script[..|script| - 1]))
  }

  class PrivFile {
    var state: FileState
    var semConnect: nat
    var cmAlive: bool
    var opener: Opener

    var pd: bool
    var rspMr: bool
    var reqMr: bool
    var channel: bool
    var cq: bool
    var armed: bool
    var qp: bool

    // What the connection manager has been asked for and has not answered yet.
    var addrPending: bool
    var routePending: bool
    var connectPending: bool

    ghost var log: seq<Event>   // the events handled so far

    predicate Objects()
      reads this
    {
      pd && rspMr && reqMr && channel && cq && armed
    }

    predicate NoObjects()
      reads this
    {
      !pd && !rspMr && !reqMr && !channel && !cq && !armed
    }

    /** The opening thread waits, and nobody is left to wake it. */
    predicate Stuck()
      reads this
    {
      !cmAlive && opener == WaitingConnect && semConnect == 0
    }

    ghost predicate Valid()
      reads this
    {
      && (addrPending ==> NoObjects() && !qp && !routePending && !connectPending && !Routed(log))
      && (routePending && cmAlive ==> Objects())
      && (routePending ==> !qp && !connectPending && !Connected(log) && !Routed(log))
      && (connectPending || Connected(log) ==> Objects() && qp)
      && (state == Established <==> Connected(log) && !Closed(log))
      && (cmAlive ==> !Closed(log))
      && (state == Error <==> ErrorEvent in log)
      && (state == Disconnected <==> DisconnectEvent in log)
      && (state == Error || state == Disconnected ==> !cmAlive)
      && (cmAlive ==> NoEvent !in log)
      && (AddrFailed(log) ==> !cmAlive && NoObjects() && !Routed(log) && state == Init)
      && (RouteFailed(log) ==> !qp && state == Init)
      && (Abandoned(log) <==> Stuck())
      && (Routed(log) && !RouteFailed(log) ==> Objects() && qp)
      && (opener == PostedRecv ==> Connected(log))
      && (cmAlive && !Connected(log) ==> semConnect == 0 && opener == WaitingConnect)
      && (cmAlive && Connected(log) && opener == WaitingConnect ==> semConnect > 0)
    }

    /** rpmem_open up to rdma_resolve_addr: the thread runs and the address is asked for. */
    constructor ()
      ensures Valid() && cmAlive && state == Init && opener == WaitingConnect
      ensures addrPending && log == []
    {
      state, semConnect, cmAlive, opener := Init, 0, true, WaitingConnect;
      pd, rspMr, reqMr, channel, cq, armed, qp := false, false, false, false, false, false, false;
      addrPending, routePending, connectPending := true, false, false;
      log := [];
    }

    /** rpmem_addr_handler: a chain of allocations, undone in reverse order by the labels
        at its end. After a failure nothing stays allocated and the opener is woken. */
    method AddrHandler(fails: AddrCall) returns (ret: int)
      requires NoObjects()
      modifies this`pd, this`rspMr, this`reqMr, this`channel, this`cq, this`armed, this`routePending, this`semConnect
      ensures ret == (if fails == NoFailure then 0 else -1)
      ensures if ret == 0 then Objects() else NoObjects()
      ensures semConnect == old(semConnect) + (if ret == 0 then 0 else 1)
      ensures routePending == (if fails == ResolveRoute then old(routePending) else true)
    {
      var k := Rank(fails);
      routePending := routePending || k != 0;
      if k > 1 { pd := true; }
      if k > 2 { rspMr := true; }
      if k > 3 { reqMr := true; }
      if k > 4 { channel := true; }
      if k > 5 { cq := true; }
      if k > 6 {
        armed := true;
        return 0;
      }
      if k > 5 { cq := false; }
      if k > 4 { channel := false; }
      if k > 3 { reqMr := false; }
      if k > 2 { rspMr := false; }
      if k > 1 { pd := false; }
      semConnect := semConnect + 1;
      return -1;
    }

    /** rpmem_route_handler: on failure it posts no semaphore. */
    method RouteHandler(qpOk: bool, connectOk: bool) returns (ret: int)
      modifies this`qp, this`connectPending
      ensures ret == (if qpOk && connectOk then 0 else -1)
      ensures qp == (if qpOk then connectOk else old(qp))
      ensures connectPending == (old(connectPending) || ret == 0)
    {
      if !qpOk {
        return -1;
      }
      qp := true;
      if !connectOk {
        qp := false;
        return -1;
      }
      connectPending := true;
      return 0;
    }

    /** The manager only answers what it was asked. */
    predicate Possible(e: Event)
      reads this
    {
      match e
      case AddrResolved(_) => addrPending
      case RouteResolved(_, _) => routePending
      case EstablishedEvent => connectPending
      case _ => true
    }

    /** One turn of cm_thread: get an event, handle it, and exit on any non-zero result. */
    method CmTurn(e: Event)
      requires Valid() && cmAlive && Possible(e)
      modifies this
      ensures Valid()
      ensures log == old(log) + [e]
      ensures opener == old(opener)
      ensures cmAlive <==> !Ends(e)
      ensures semConnect == old(semConnect) + (if Posts(e) then 1 else 0)
      ensures state == StateAfter(old(state), e)
      ensures addrPending == (old(addrPending) && !e.AddrResolved?)
      ensures routePending == (if e.AddrResolved? then e.fails != ResolveRoute else old(routePending) && !e.RouteResolved?)
      ensures connectPending == (if e.RouteResolved? then !RouteFails(e) else old(connectPending) && !e.EstablishedEvent?)
      ensures e.RouteResolved? ==> old(Objects())
    {
      var ret := 0;
      hide Rank, Routed, RouteFailed, AddrFailed, Connected, Closed;
      Appended(log, e);
      match e {
        case AddrResolved(fails) =>
          addrPending := false;
          ret := AddrHandler(fails);
        case RouteResolved(qpOk, connectOk) =>
          routePending := false;
          ret := RouteHandler(qpOk, connectOk);
        case EstablishedEvent =>
          connectPending := false;
          state := Established;
          semConnect := semConnect + 1;
        case NoEvent =>
          ret := -1;
        case ErrorEvent =>
          state := Error;
          ret := -1;
          semConnect := semConnect + 1;
        case DisconnectEvent =>
          state := Disconnected;
          ret := -1;
          semConnect := semConnect + 1;
      }
      log := log + [e];
      if ret != 0 {
        cmAlive := false;
      }
    }

    method OpenWake()
      requires Valid() && opener == WaitingConnect && semConnect > 0
      modifies this`semConnect, this`opener
      ensures Valid() && opener == WokenConnect && semConnect == old(semConnect) - 1
    {
      semConnect := semConnect - 1;
      opener := WokenConnect;
    }

    /** The test in rpmem_open: only an established connection goes on to post the first
        receive, and then the domain, both buffer registrations, the armed completion
        queue and the queue pair are all in place. */
    method OpenCheck()
      requires Valid() && opener == WokenConnect
      modifies this`opener
      ensures Valid()
      ensures if state == Established then opener == PostedRecv else opener == GaveUp
      ensures opener == PostedRecv ==> Connected(log) && Objects() && qp
    {
      opener := if state == Established then PostedRecv else GaveUp;
    }

    /** Every interleaving of manager events with the opening thread, whichever calls fail:
        the first receive is posted only after ESTABLISHED was handled with everything in
        place; a failed address step is never followed by a handled route event; ERROR and
        DISCONNECTED are final. The opener is left waiting with nobody to wake it exactly
        when a route step failed or the manager's thread got no event before ESTABLISHED,
        and then for ever. Once woken, its next step decides: it goes on if the connection
        is established at that moment and gives up if not, and either is final. */
    method AnySetup(script: seq<Move>) returns (ghost handled: seq<Event>, ghost checks: seq<bool>)
      requires Valid()
      modifies this
      ensures Valid()
      ensures log == old(log) + handled && Offered(handled, script)
      ensures state == Established <==> Connected(log) && !Closed(log)
      ensures opener == PostedRecv ==> Connected(log) && Objects() && qp
      ensures AddrFailed(log) ==> !Routed(log) && opener != PostedRecv
      ensures state == Error <==> ErrorEvent in log
      ensures state == Disconnected <==> DisconnectEvent in log
      ensures |checks| <= 1
      ensures checks == [] ==> opener == old(opener) || (old(opener) == WaitingConnect && opener == WokenConnect)
      ensures checks != [] ==> opener == (if checks[0] then PostedRecv else GaveUp)
      ensures old(opener) == PostedRecv || old(opener) == GaveUp ==> checks == [] && opener == old(opener)
      ensures opener == WokenConnect ==> script == [] || script[|script| - 1] != OpenChecks
      ensures Stuck() <==> RouteFailed(log) || (NoEvent in log && !Connected(log))
      ensures old(Stuck()) ==> Stuck()
      ensures old(state) == Error || old(state) == Disconnected ==> state == old(state)
    {
      hide Routed, RouteFailed, AddrFailed, Connected, Closed;
      handled, checks := [], [];
      for i := 0 to |script|
        invariant Valid()
        invariant log == old(log) + handled && Offered(handled, script[..i])
        invariant checks == [] ==> opener == old(opener) || (old(opener) == WaitingConnect && opener == WokenConnect)
        invariant |checks| <= 1
        invariant checks != [] ==> opener == (if checks[0] then PostedRecv else GaveUp)
        invariant old(opener) == PostedRecv || old(opener) == GaveUp ==> checks == [] && opener == old(opener)
        invariant opener == WokenConnect && i > 0 ==> script[i - 1] != OpenChecks
        invariant old(Stuck()) ==> Stuck()
        invariant old(state) == Error || old(state) == Disconnected ==> state == old(state)
      {
        assert script[..i + 1][..i] == script[..i];
        match script[i]
        case Cm(e) =>
          if cmAlive && Possible(e) {
            CmTurn(e);
            handled := handled + [e];
            assert handled[..|handled| - 1] + [e] == handled;
          }
        case OpenWakes =>
          if opener == WaitingConnect && semConnect > 0 { OpenWake(); }
        case OpenChecks =>
          if opener == WokenConnect {
            checks := checks + [state == Established];
            OpenCheck();
          }
      }
      assert script[..|script|] == script;
    }
  }

  /** A failing rdma_create_qp or rdma_connect, after an address step that succeeded,
      leaves the caller of rpmem_open waiting. */
  method RouteStepFails(qpOk: bool, connectOk: bool) returns (file: PrivFile)
    requires !(qpOk && connectOk)
    ensures fresh(file) && file.Valid() && file.Stuck()
    ensures file.log == [AddrResolved(NoFailure), RouteResolved(qpOk, connectOk)]
  {
    file := new PrivFile();
    file.CmTurn(AddrResolved(NoFailure));
    file.CmTurn(RouteResolved(qpOk, connectOk));
  }
}
