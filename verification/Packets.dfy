/** Frames of the mesh, as the router sees them after decryption. */
module Packets {
  type U8 = x: int | 0 <= x < 0x100
  type U16 = x: int | 0 <= x < 0x1_0000
  type U32 = x: int | 0 <= x < 0x1_0000_0000

  const BROADCAST_ADDR: U32 := 0xFFFF_FFFF

  const FROM_GATEWAY: U8 := 0x01
  const TO_GATEWAY: U8 := 0x02
  const I_AM_GATEWAY: U8 := 0x03
  const REQ_ACK: U8 := 0x04
  const ENC_MSG: U8 := 0x10
  const ENC_ACK: U8 := 0x14

  const BASE_HDR := 20
  const TAG_LEN := 8
  const MAX_BUF := 255
  const MAX_HOPS: U8 := 5

  /** uint8_t increment. */
  function Inc8(h: U8): U8 {
    if h == 255 then 0 else h + 1
  }

  /** uint8_t addition. */
  function Add8(a: U8, b: U8): U8 {
    (a + b) % 256
  }

  /** flags & REQ_ACK */
  predicate AsksAck(flags: U8) {
    (flags / 4) % 2 == 1
  }

  /** flags & ~FLAG_ENCRYPTED */
  function ClearEnc(flags: U8): U8 {
    flags % 128
  }

  function Min(a: nat, b: nat): nat {
    if a < b then a else b
  }

  /** Extension header and payload; the packet type is the constructor. */
  datatype Body =
    | Rreq(target: U32)
    | Rrep(target: U32, numHops: U8)
    | Rerr(reporter: U32, broken: U32, originalDest: U32, originalPacket: U32)
    | Data(finalDest: U32, data: seq<U8>)
    | Info(numAdded: U16, numRemoved: U16, ids: seq<U32>)
    | Ack(originalPacket: U32)
    | Ureq(user: U32)
    | Urep(destNode: U32, user: U32, numHops: U8)
    | Uerr(user: U32, node: U32, originalPacket: U32)
    | UserMsg(fromUser: U32, toUser: U32, toNode: U32, message: seq<U8>)
    | MoveUser(user: U32, oldNode: U32)

  datatype Frame = Frame(dest: U32, prev: U32, origin: U32, id: U32, flags: U8, hops: U8, body: Body)

  /** Bytes of extension header plus payload (UREP is sent with its padding byte). */
  function BodyLen(b: Body): nat {
    match b
    case Rreq(_) => 4
    case Rrep(_, _) => 7
    case Rerr(_, _, _, _) => 16
    case Data(_, data) => 4 + |data|
    case Info(_, _, ids) => 4 + 4 * |ids|
    case Ack(_) => 4
    case Ureq(_) => 4
    case Urep(_, _, _) => 12
    case Uerr(_, _, _) => 12
    case UserMsg(_, _, _, message) => 12 + |message|
    case MoveUser(_, _) => 8
  }

  predicate Oversize(b: Body) {
    BASE_HDR + BodyLen(b) + TAG_LEN > MAX_BUF
  }
}
