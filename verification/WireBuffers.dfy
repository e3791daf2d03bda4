/** rpmem_protocol.c and the buffer side of rpmem_common.c on the 48-byte arrays they write
    in place, each tied to the pure format of module Wire. */
module WireBuffers {
  import opened Wire

  const EINVAL := 22

  /** Store a 32-bit field in network byte order. */
  method StoreU32(b: array<Byte>, off: nat, v: U32)
    requires b.Length == CMD_SIZE && off + 4 <= CMD_SIZE
    modifies b
    ensures b[..] == PutU32(old(b[..]), off, v)
  {
    b[off] := v / TWO24;
    b[off + 1] := (v / TWO16) % TWO8;
    b[off + 2] := (v / TWO8) % TWO8;
    b[off + 3] := v % TWO8;
  }

  method StoreU64(b: array<Byte>, off: nat, v: U64)
    requires b.Length == CMD_SIZE && off + 8 <= CMD_SIZE
    modifies b
    ensures b[..] == PutU64(old(b[..]), off, v)
  {
    StoreU32(b, off, v / TWO32);
    StoreU32(b, off + 4, v % TWO32);
  }

  method LoadU32(b: array<Byte>, off: nat) returns (v: U32)
    requires b.Length == CMD_SIZE && off + 4 <= CMD_SIZE
    ensures v == GetU32(b[..], off)
  {
    v := b[off] * TWO24 + b[off + 1] * TWO16 + b[off + 2] * TWO8 + b[off + 3];
  }

  method LoadU64(b: array<Byte>, off: nat) returns (v: U64)
    requires b.Length == CMD_SIZE && off + 8 <= CMD_SIZE
    ensures v == GetU64(b[..], off)
  {
    var hi := LoadU32(b, off);
    var lo := LoadU32(b, off + 4);
    v := hi * TWO32 + lo;
  }

  /** The memset of rpmem_post_recv. */
  method ZeroBuffer(b: array<Byte>)
    requires b.Length == CMD_SIZE
    modifies b
    ensures forall i :: 0 <= i < CMD_SIZE ==> b[i] == 0
    ensures b[..] == Zeroed()
  {
    for i := 0 to CMD_SIZE
      invariant forall j :: 0 <= j < i ==> b[j] == 0
    {
      b[i] := 0;
    }
  }

  // ---- requests

  method PackOpenReq(req: array<Byte>)
    requires req.Length == CMD_SIZE
    modifies req
    ensures req[..] == PackRequest(old(req[..]), OpenReq)
  {
    StoreU32(req, 0, OPEN_REQ);
  }

  method PackCloseReq(req: array<Byte>)
    requires req.Length == CMD_SIZE
    modifies req
    ensures req[..] == PackRequest(old(req[..]), CloseReq)
  {
    StoreU32(req, 0, CLOSE_REQ);
  }

  method PackMapReq(req: array<Byte>, len: S32)
    requires req.Length == CMD_SIZE
    modifies req
    ensures req[..] == PackRequest(old(req[..]), MapReq(len))
  {
    StoreU32(req, 0, MAP_REQ);
    StoreU32(req, 4, ToU32(len));
  }

  method PackUnmapReq(req: array<Byte>, len: S32, addr: U64)
    requires req.Length == CMD_SIZE
    modifies req
    ensures req[..] == PackRequest(old(req[..]), UnmapReq(len, addr))
  {
    StoreU32(req, 0, UNMAP_REQ);
    StoreU32(req, 4, ToU32(len));
    StoreU64(req, 8, addr);
  }

  method PackCommitReq(req: array<Byte>, len: S32, addr: U64)
    requires req.Length == CMD_SIZE
    modifies req
    ensures req[..] == PackRequest(old(req[..]), CommitReq(len, addr))
  {
    StoreU32(req, 0, COMMIT_REQ);
    StoreU32(req, 4, ToU32(len));
    StoreU64(req, 8, addr);
  }

  /** rpmem_rcv_completion and the first lines of the handlers: what the server reads from
      a request buffer. On a buffer packed over any stale bytes it is the request packed. */
  method ReadRequest(req: array<Byte>) returns (q: Request)
    requires req.Length == CMD_SIZE
    ensures q == DecodeRequest(req[..])
    ensures forall b: Buffer, p: Request :: Known(p) && req[..] == PackRequest(b, p) ==> q == p
  {
    forall b: Buffer, p: Request | Known(p) && req[..] == PackRequest(b, p) ensures DecodeRequest(req[..]) == p {
      RequestRoundTrip(b, p);
    }
    var op := LoadU32(req, 0);
    if op == OPEN_REQ {
      q := OpenReq;
    } else if op == CLOSE_REQ {
      q := CloseReq;
    } else if op == MAP_REQ || op == UNMAP_REQ || op == COMMIT_REQ {
      var len := LoadU32(req, 4);
      var addr := LoadU64(req, 8);
      q := if op == MAP_REQ then MapReq(ToS32(len))
           else if op == UNMAP_REQ then UnmapReq(ToS32(len), addr)
           else CommitReq(ToS32(len), addr);
    } else {
      q := UnknownReq(op);
    }
  }

  // ---- responses

  /** pack_open_rsp, pack_close_rsp, pack_unmap_rsp, pack_commit_rsp: an opcode and an int. */
  method PackIntRsp(rsp: array<Byte>, p: Response)
    requires rsp.Length == CMD_SIZE && !p.MapRsp?
    modifies rsp
    ensures rsp[..] == PackResponse(old(rsp[..]), p)
  {
    match p
    case OpenRsp(size) =>
      StoreU32(rsp, 0, OPEN_RSP);
      StoreU32(rsp, 4, ToU32(size));
    case CloseRsp(ret) =>
      StoreU32(rsp, 0, CLOSE_RSP);
      StoreU32(rsp, 4, ToU32(ret));
    case UnmapRsp(ret) =>
      StoreU32(rsp, 0, UNMAP_RSP);
      StoreU32(rsp, 4, ToU32(ret));
    case CommitRsp(ret) =>
      StoreU32(rsp, 0, COMMIT_RSP);
      StoreU32(rsp, 4, ToU32(ret));
  }

  method PackMapRsp(rsp: array<Byte>, rkey: U32, addr: U64)
    requires rsp.Length == CMD_SIZE
    modifies rsp
    ensures rsp[..] == PackResponse(old(rsp[..]), MapRsp(rkey, addr))
  {
    StoreU32(rsp, 0, MAP_RSP);
    StoreU32(rsp, 4, rkey);
    StoreU64(rsp, 8, addr);
  }

  /** unpack_open_rsp, unpack_close_rsp, unpack_unmap_rsp, unpack_commit_rsp. The caller's
      variable `was` is only overwritten when the opcode is the one tested for. Over any
      stale bytes, exactly the answers of that kind are accepted, with their value. */
  method UnpackIntRsp(rsp: array<Byte>, want: U32, was: S32) returns (ret: int, value: S32)
    requires rsp.Length == CMD_SIZE && want in {OPEN_RSP, CLOSE_RSP, UNMAP_RSP, COMMIT_RSP}
    ensures ret == 0 || (ret == -EINVAL && value == was)
    ensures ret == 0 <==> UnpackResponse(want, rsp[..]).Accepted?
    ensures forall b: Buffer, p: Response :: rsp[..] == PackResponse(b, p) ==>
              && (ret == 0 <==> ResponseOpcode(p) == want)
              && (ret == 0 ==> (p.OpenRsp? && value == p.size) || (!p.OpenRsp? && !p.MapRsp? && value == p.ret))
  {
    forall b: Buffer, p: Response | rsp[..] == PackResponse(b, p)
      ensures UnpackResponse(want, rsp[..]) == if want == ResponseOpcode(p) then Accepted(p) else Rejected
    {
      ResponseRoundTrip(b, p, want);
    }
    var op := LoadU32(rsp, 0);
    if op != want {
      return -EINVAL, was;
    }
    var u := LoadU32(rsp, 4);
    return 0, ToS32(u);
  }

  /** unpack_map_rsp. */
  method UnpackMapRsp(rsp: array<Byte>, rkeyWas: U32, addrWas: U64) returns (ret: int, rkey: U32, addr: U64)
    requires rsp.Length == CMD_SIZE
    ensures ret == 0 || (ret == -EINVAL && rkey == rkeyWas && addr == addrWas)
    ensures ret == 0 <==> UnpackResponse(MAP_RSP, rsp[..]).Accepted?
    ensures forall b: Buffer, p: Response :: rsp[..] == PackResponse(b, p) ==>
              && (ret == 0 <==> p.MapRsp?)
              && (ret == 0 ==> p == MapRsp(rkey, addr))
  {
    forall b: Buffer, p: Response | rsp[..] == PackResponse(b, p)
      ensures UnpackResponse(MAP_RSP, rsp[..]) == if p.MapRsp? then Accepted(p) else Rejected
    {
      ResponseRoundTrip(b, p, MAP_RSP);
    }
    var op := LoadU32(rsp, 0);
    if op != MAP_RSP {
      return -EINVAL, rkeyWas, addrWas;
    }
    rkey := LoadU32(rsp, 4);
    addr := LoadU64(rsp, 8);
    ret := 0;
  }
}
