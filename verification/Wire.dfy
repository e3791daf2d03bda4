/** The wire format of rpmem_protocol.h and rpmem_protocol.c: 48-byte command
    buffers holding big-endian fields at offsets 0, 4 and 8. A packer overlays its
    fields on whatever bytes the buffer held before. */
module Wire {

  const CMD_SIZE := 48

  type Byte = x: int | 0 <= x < 256
  type Buffer = b: seq<Byte> | |b| == CMD_SIZE witness seq(CMD_SIZE, _ => 0)

  const TWO8 := 0x100
  const TWO16 := 0x1_0000
  const TWO24 := 0x100_0000
  const TWO31 := 0x8000_0000
  const TWO32 := 0x1_0000_0000
  const TWO64 := 0x1_0000_0000_0000_0000

  type U32 = x: int | 0 <= x < TWO32
  type U64 = x: int | 0 <= x < TWO64
  type S32 = x: int | -TWO31 <= x < TWO31
  /** A length or a size that fits a non-negative C int. */
  type Len = x: int | 0 <= x < TWO31

  // ---- big-endian fields (htonl, htobe32, htobe64 and their inverses)

  function BE32(v: U32): (b: seq<Byte>)
    ensures |b| == 4
  {
    [v / TWO24, (v / TWO16) % TWO8, (v / TWO8) % TWO8, v % TWO8]
  }

  function PutU32(b: Buffer, off: nat, v: U32): (r: Buffer)
    requires off + 4 <= CMD_SIZE
  {
    b[..off] + BE32(v) + b[off + 4..]
  }

  function GetU32(b: Buffer, off: nat): (v: U32)
    requires off + 4 <= CMD_SIZE
  {
    b[off] * TWO24 + b[off + 1] * TWO16 + b[off + 2] * TWO8 + b[off + 3]
  }

  function PutU64(b: Buffer, off: nat, v: U64): (r: Buffer)
    requires off + 8 <= CMD_SIZE
  {
    PutU32(PutU32(b, off, v / TWO32), off + 4, v % TWO32)
  }

  function GetU64(b: Buffer, off: nat): (v: U64)
    requires off + 8 <= CMD_SIZE
  {
    GetU32(b, off) * TWO32 + GetU32(b, off + 4)
  }

  /** Two's complement: what htonl sees of a C int, and back. */
  function ToU32(v: S32): (u: U32) { if v < 0 then v + TWO32 else v }
  function ToS32(u: U32): (v: S32) { if u >= TWO31 then u - TWO32 else u }

  lemma BigEndianInverse(v: U32)
    ensures var b := BE32(v);
            b[0] * TWO24 + b[1] * TWO16 + b[2] * TWO8 + b[3] == v
  {
    var q1 := v / TWO8;
    var q2 := v / TWO16;
    assert q2 == q1 / TWO8;
    assert v / TWO24 == q2 / TWO8;
  }

  lemma PutGet32(b: Buffer, off: nat, v: U32)
    requires off + 4 <= CMD_SIZE
    ensures GetU32(PutU32(b, off, v), off) == v
    ensures forall i :: 0 <= i < CMD_SIZE && !(off <= i < off + 4) ==> PutU32(b, off, v)[i] == b[i]
  {
    BigEndianInverse(v);
    var r := PutU32(b, off, v);
    assert r[off] == BE32(v)[0] && r[off + 1] == BE32(v)[1] && r[off + 2] == BE32(v)[2] && r[off + 3] == BE32(v)[3];
  }

  lemma PutGet64(b: Buffer, off: nat, v: U64)
    requires off + 8 <= CMD_SIZE
    ensures GetU64(PutU64(b, off, v), off) == v
    ensures forall i :: 0 <= i < CMD_SIZE && !(off <= i < off + 8) ==> PutU64(b, off, v)[i] == b[i]
  {
    var b1 := PutU32(b, off, v / TWO32);
    PutGet32(b, off, v / TWO32);
    PutGet32(b1, off + 4, v % TWO32);
    GetFrame32(b1, PutU32(b1, off + 4, v % TWO32), off);
  }

  lemma GetFrame32(a: Buffer, b: Buffer, off: nat)
    requires off + 4 <= CMD_SIZE
    requires forall i :: off <= i < off + 4 ==> a[i] == b[i]
    ensures GetU32(a, off) == GetU32(b, off)
  {
  }

  /** The number that bytes stand for in network byte order, most significant first
      (Appendix B of RFC 791). */
  function BigEndian(s: seq<Byte>): (n: nat)
  {
    if s == [] then 0 else BigEndian(s[..|s| - 1]) * TWO8 + s[|s| - 1]
  }

  lemma BigEndian4(s: seq<Byte>)
    requires |s| == 4
    ensures BigEndian(s) == s[0] * TWO24 + s[1] * TWO16 + s[2] * TWO8 + s[3]
  {
    assert s[..3][..2] == s[..2] && s[..2][..1] == s[..1] && s[..1][..0] == [];
    assert BigEndian(s[..1]) == s[0];
    assert BigEndian(s[..2]) == s[0] * TWO8 + s[1];
    assert BigEndian(s[..3]) == (s[0] * TWO8 + s[1]) * TWO8 + s[2];
  }

  lemma BigEndian8(s: seq<Byte>)
    requires |s| == 8
    ensures BigEndian(s) == BigEndian(s[..4]) * TWO32 + BigEndian(s[4..])
  {
    assert s[..7][..6] == s[..6] && s[..6][..5] == s[..5] && s[..5][..4] == s[..4];
    var hi := BigEndian(s[..4]);
    assert BigEndian(s[..5]) == hi * TWO8 + s[4];
    assert BigEndian(s[..6]) == (hi * TWO8 + s[4]) * TWO8 + s[5];
    assert BigEndian(s[..7]) == ((hi * TWO8 + s[4]) * TWO8 + s[5]) * TWO8 + s[6];
    BigEndian4(s[4..]);
  }

  /** A field is read, and therefore written, as the big-endian number of its bytes. */
  lemma FieldsAreBigEndian(b: Buffer, off: nat, v: U32, w: U64)
    requires off + 8 <= CMD_SIZE
    ensures GetU32(b, off) == BigEndian(b[off..off + 4])
    ensures GetU64(b, off) == BigEndian(b[off..off + 8])
    ensures BigEndian(PutU32(b, off, v)[off..off + 4]) == v
    ensures BigEndian(PutU64(b, off, w)[off..off + 8]) == w
  {
    GetIsBigEndian(b, off);
    PutGet32(b, off, v);
    GetIsBigEndian(PutU32(b, off, v), off);
    PutGet64(b, off, w);
    GetIsBigEndian(PutU64(b, off, w), off);
  }

  lemma GetIsBigEndian(b: Buffer, off: nat)
    requires off + 8 <= CMD_SIZE
    ensures GetU32(b, off) == BigEndian(b[off..off + 4])
    ensures GetU64(b, off) == BigEndian(b[off..off + 8])
  {
    BigEndian4(b[off..off + 4]);
    BigEndian4(b[off + 4..off + 8]);
    BigEndian8(b[off..off + 8]);
    assert b[off..off + 8][..4] == b[off..off + 4] && b[off..off + 8][4..] == b[off + 4..off + 8];
  }

  // ---- messages

  const OPEN_REQ: U32 := 0
  const OPEN_RSP: U32 := 1
  const CLOSE_REQ: U32 := 2
  const CLOSE_RSP: U32 := 3
  const MAP_REQ: U32 := 4
  const MAP_RSP: U32 := 5
  const UNMAP_REQ: U32 := 6
  const UNMAP_RSP: U32 := 7
  const COMMIT_REQ: U32 := 8
  const COMMIT_RSP: U32 := 9

  datatype Request =
    | OpenReq
    | CloseReq
    | MapReq(len: S32)
    | UnmapReq(len: S32, addr: U64)
    | CommitReq(len: S32, addr: U64)
    | UnknownReq(opcode: U32)

  datatype Response =
    | OpenRsp(size: S32)
    | CloseRsp(ret: S32)
    | MapRsp(rkey: U32, addr: U64)
    | UnmapRsp(ret: S32)
    | CommitRsp(ret: S32)

  function RequestOpcode(q: Request): (op: U32)
  {
    match q
    case OpenReq => OPEN_REQ
    case CloseReq => CLOSE_REQ
    case MapReq(_) => MAP_REQ
    case UnmapReq(_, _) => UNMAP_REQ
    case CommitReq(_, _) => COMMIT_REQ
    case UnknownReq(op) => op
  }

  function ResponseOpcode(r: Response): (op: U32)
  {
    match r
    case OpenRsp(_) => OPEN_RSP
    case CloseRsp(_) => CLOSE_RSP
    case MapRsp(_, _) => MAP_RSP
    case UnmapRsp(_) => UNMAP_RSP
    case CommitRsp(_) => COMMIT_RSP
  }

  /** The pack_*_req functions: fields overlaid on the stale bytes of `b`. */
  function PackRequest(b: Buffer, q: Request): (r: Buffer)
  {
    match q
    case OpenReq => PutU32(b, 0, OPEN_REQ)
    case CloseReq => PutU32(b, 0, CLOSE_REQ)
    case MapReq(len) => PutU32(PutU32(b, 0, MAP_REQ), 4, ToU32(len))
    case UnmapReq(len, addr) => PutU64(PutU32(PutU32(b, 0, UNMAP_REQ), 4, ToU32(len)), 8, addr)
    case CommitReq(len, addr) => PutU64(PutU32(PutU32(b, 0, COMMIT_REQ), 4, ToU32(len)), 8, addr)
    case UnknownReq(op) => PutU32(b, 0, op)
  }

  /** The pack_*_rsp functions. */
  function PackResponse(b: Buffer, p: Response): (r: Buffer)
  {
    match p
    case OpenRsp(size) => PutU32(PutU32(b, 0, OPEN_RSP), 4, ToU32(size))
    case CloseRsp(ret) => PutU32(PutU32(b, 0, CLOSE_RSP), 4, ToU32(ret))
    case MapRsp(rkey, addr) => PutU64(PutU32(PutU32(b, 0, MAP_RSP), 4, rkey), 8, addr)
    case UnmapRsp(ret) => PutU32(PutU32(b, 0, UNMAP_RSP), 4, ToU32(ret))
    case CommitRsp(ret) => PutU32(PutU32(b, 0, COMMIT_RSP), 4, ToU32(ret))
  }

  /** How many leading bytes a packer may write. */
  function RequestExtent(q: Request): (n: nat)
  {
    match q
    case OpenReq | CloseReq | UnknownReq(_) => 4
    case MapReq(_) => 8
    case UnmapReq(_, _) | CommitReq(_, _) => 16
  }

  function ResponseExtent(p: Response): (n: nat) { if p.MapRsp? then 16 else 8 }

  /** What a server handler reads from the request buffer once the dispatcher has
      picked it by `opcode`. */
  function HandlerView(opcode: U32, b: Buffer): (q: Request)
  {
    if opcode == OPEN_REQ then OpenReq
    else if opcode == CLOSE_REQ then CloseReq
    else if opcode == MAP_REQ then MapReq(ToS32(GetU32(b, 4)))
    else if opcode == UNMAP_REQ then UnmapReq(ToS32(GetU32(b, 4)), GetU64(b, 8))
    else if opcode == COMMIT_REQ then CommitReq(ToS32(GetU32(b, 4)), GetU64(b, 8))
    else UnknownReq(opcode)
  }

  function DecodeRequest(b: Buffer): (q: Request) { HandlerView(GetU32(b, 0), b) }

  datatype Decoded = Accepted(rsp: Response) | Rejected

  /** The unpack_*_rsp functions as one: `want` is the opcode the unpacker tests
      for; any other opcode is -EINVAL. */
  function UnpackResponse(want: U32, b: Buffer): (d: Decoded)
  {
    if GetU32(b, 0) != want then Rejected
    else if want == OPEN_RSP then Accepted(OpenRsp(ToS32(GetU32(b, 4))))
    else if want == CLOSE_RSP then Accepted(CloseRsp(ToS32(GetU32(b, 4))))
    else if want == MAP_RSP then Accepted(MapRsp(GetU32(b, 4), GetU64(b, 8)))
    else if want == UNMAP_RSP then Accepted(UnmapRsp(ToS32(GetU32(b, 4))))
    else if want == COMMIT_RSP then Accepted(CommitRsp(ToS32(GetU32(b, 4))))
    else Rejected
  }

  /** A request that a client can pack: every constructor but UnknownReq. */
  predicate Known(q: Request) { !q.UnknownReq? }

  // ---- round trips over dirty buffers

  lemma TwoFields(b: Buffer, x: U32, y: U32)
    ensures var r := PutU32(PutU32(b, 0, x), 4, y);
            && GetU32(r, 0) == x
            && GetU32(r, 4) == y
            && forall i :: 8 <= i < CMD_SIZE ==> r[i] == b[i]
  {
    var b1 := PutU32(b, 0, x);
    PutGet32(b, 0, x);
    PutGet32(b1, 4, y);
    GetFrame32(b1, PutU32(b1, 4, y), 0);
  }

  lemma ThreeFields(b: Buffer, x: U32, y: U32, z: U64)
    ensures var r := PutU64(PutU32(PutU32(b, 0, x), 4, y), 8, z);
            && GetU32(r, 0) == x
            && GetU32(r, 4) == y
            && GetU64(r, 8) == z
            && forall i :: 16 <= i < CMD_SIZE ==> r[i] == b[i]
  {
    var b2 := PutU32(PutU32(b, 0, x), 4, y);
    TwoFields(b, x, y);
    PutGet64(b2, 8, z);
    GetFrame32(b2, PutU64(b2, 8, z), 0);
    GetFrame32(b2, PutU64(b2, 8, z), 4);
  }

  /** Packing a request over any stale buffer and decoding it as the dispatcher and
      the handler do gives the request back; bytes past its fields are untouched. */
  lemma RequestRoundTrip(b: Buffer, q: Request)
    requires Known(q)
    ensures DecodeRequest(PackRequest(b, q)) == q
    ensures GetU32(PackRequest(b, q), 0) == RequestOpcode(q)
    ensures forall i :: RequestExtent(q) <= i < CMD_SIZE ==> PackRequest(b, q)[i] == b[i]
  {
    match q
    case OpenReq => PutGet32(b, 0, OPEN_REQ);
    case CloseReq => PutGet32(b, 0, CLOSE_REQ);
    case MapReq(len) => TwoFields(b, MAP_REQ, ToU32(len));
    case UnmapReq(len, addr) => ThreeFields(b, UNMAP_REQ, ToU32(len), addr);
    case CommitReq(len, addr) => ThreeFields(b, COMMIT_REQ, ToU32(len), addr);
  }

  /** Each unpacker accepts exactly its own response, returns the values packed, and
      rejects every other response, whatever bytes lay in the buffer before. */
  lemma ResponseRoundTrip(b: Buffer, p: Response, want: U32)
    ensures UnpackResponse(want, PackResponse(b, p)) ==
            if want == ResponseOpcode(p) then Accepted(p) else Rejected
    ensures forall i :: ResponseExtent(p) <= i < CMD_SIZE ==> PackResponse(b, p)[i] == b[i]
  {
    match p
    case OpenRsp(size) => TwoFields(b, OPEN_RSP, ToU32(size));
    case CloseRsp(ret) => TwoFields(b, CLOSE_RSP, ToU32(ret));
    case MapRsp(rkey, addr) => ThreeFields(b, MAP_RSP, rkey, addr);
    case UnmapRsp(ret) => TwoFields(b, UNMAP_RSP, ToU32(ret));
    case CommitRsp(ret) => TwoFields(b, COMMIT_RSP, ToU32(ret));
  }

  /** No unpacker accepts a packed request, and none accepts a buffer that
      rpmem_post_recv has zeroed: opcode 0 is no response. */
  lemma NoResponseInRequestOrZero(b: Buffer, q: Request, want: U32)
    requires Known(q) && want in {OPEN_RSP, CLOSE_RSP, MAP_RSP, UNMAP_RSP, COMMIT_RSP}
    ensures UnpackResponse(want, PackRequest(b, q)) == Rejected
    ensures UnpackResponse(want, Zeroed()) == Rejected
  {
    RequestRoundTrip(b, q);
  }

  /** What rpmem_post_recv leaves in a buffer. */
  function Zeroed(): (b: Buffer)
    ensures forall i :: 0 <= i < CMD_SIZE ==> b[i] == 0
  {
    seq(CMD_SIZE, _ => 0)
  }

  // ---- the layout, field by field

  /** Two's complement on 32 bits. */
  function Wrap32(v: S32): (u: int) { v % TWO32 }

  lemma WrapsSame(v: S32)
    ensures ToU32(v) == Wrap32(v)
  {
  }

  lemma FieldAt(b: Buffer, off: nat)
    requires off + 8 <= CMD_SIZE
    ensures BigEndian(b[off..off + 4]) == GetU32(b, off) && BigEndian(b[off..off + 8]) == GetU64(b, off)
  {
    GetIsBigEndian(b, off);
  }

  /** The requests of rpmem_protocol.h: the opcode in bytes 0 to 3, an int in bytes 4 to 7
      and an address in bytes 8 to 15, most significant byte first. */
  lemma RequestLayout(b: Buffer, q: Request)
    requires Known(q)
    ensures var r := PackRequest(b, q);
            match q
            case OpenReq => BigEndian(r[0..4]) == 0
            case CloseReq => BigEndian(r[0..4]) == 2
            case MapReq(len) => BigEndian(r[0..4]) == 4 && BigEndian(r[4..8]) == Wrap32(len)
            case UnmapReq(len, addr) =>
              BigEndian(r[0..4]) == 6 && BigEndian(r[4..8]) == Wrap32(len) && BigEndian(r[8..16]) == addr
            case CommitReq(len, addr) =>
              BigEndian(r[0..4]) == 8 && BigEndian(r[4..8]) == Wrap32(len) && BigEndian(r[8..16]) == addr
  {
    hide BigEndian, GetU32, GetU64, PutU32, PutU64, ToU32, Wrap32;
    var r := PackRequest(b, q);
    FieldAt(r, 0);
    FieldAt(r, 4);
    FieldAt(r, 8);
    match q
    case OpenReq => PutGet32(b, 0, OPEN_REQ);
    case CloseReq => PutGet32(b, 0, CLOSE_REQ);
    case MapReq(len) =>
      WrapsSame(len);
      TwoFields(b, MAP_REQ, ToU32(len));
    case UnmapReq(len, addr) =>
      WrapsSame(len);
      ThreeFields(b, UNMAP_REQ, ToU32(len), addr);
    case CommitReq(len, addr) =>
      WrapsSame(len);
      ThreeFields(b, COMMIT_REQ, ToU32(len), addr);
  }

  /** The responses: the opcode, an int or the key, and for map the address. */
  lemma ResponseLayout(b: Buffer, p: Response)
    ensures var r := PackResponse(b, p);
            match p
            case OpenRsp(size) => BigEndian(r[0..4]) == 1 && BigEndian(r[4..8]) == Wrap32(size)
            case CloseRsp(ret) => BigEndian(r[0..4]) == 3 && BigEndian(r[4..8]) == Wrap32(ret)
            case MapRsp(rkey, addr) =>
              BigEndian(r[0..4]) == 5 && BigEndian(r[4..8]) == rkey && BigEndian(r[8..16]) == addr
            case UnmapRsp(ret) => BigEndian(r[0..4]) == 7 && BigEndian(r[4..8]) == Wrap32(ret)
            case CommitRsp(ret) => BigEndian(r[0..4]) == 9 && BigEndian(r[4..8]) == Wrap32(ret)
  {
    hide BigEndian, GetU32, GetU64, PutU32, PutU64, ToU32, Wrap32;
    var r := PackResponse(b, p);
    FieldAt(r, 0);
    FieldAt(r, 4);
    FieldAt(r, 8);
    match p
    case OpenRsp(size) =>
      WrapsSame(size);
      TwoFields(b, OPEN_RSP, ToU32(size));
    case CloseRsp(ret) =>
      WrapsSame(ret);
      TwoFields(b, CLOSE_RSP, ToU32(ret));
    case MapRsp(rkey, addr) => ThreeFields(b, MAP_RSP, rkey, addr);
    case UnmapRsp(ret) =>
      WrapsSame(ret);
      TwoFields(b, UNMAP_RSP, ToU32(ret));
    case CommitRsp(ret) =>
      WrapsSame(ret);
      TwoFields(b, COMMIT_RSP, ToU32(ret));
  }
}
