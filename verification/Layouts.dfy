/** Extension headers and payloads as bytes, and whole frames over the radio. */
module Layouts {
  import opened Packets
  import opened Nodes
  import opened Wire

  function PacketKind(b: Body): U8 {
    match b
    case Rreq(_) => 0x01
    case Rrep(_, _) => 0x02
    case Rerr(_, _, _, _) => 0x03
    case Data(_, _) => 0x04
    case Info(_, _, _) => 0x06
    case Ack(_) => 0x07
    case Ureq(_) => 0x0F
    case Urep(_, _, _) => 0x10
    case Uerr(_, _, _) => 0x11
    case UserMsg(_, _, _, _) => 0x12
    case MoveUser(_, _) => 0x15
  }

  function IdBytes(ids: seq<U32>): seq<U8> {
    if ids == [] then [] else Bytes4(ids[0]) + IdBytes(ids[1..])
  }

  /** Whole IDs only; a trailing fragment is ignored. */
  function Ids(s: seq<U8>): seq<U32> {
    if |s| < 4 then [] else [Int4(s[..4])] + Ids(s[4..])
  }

  /** The bytes handed to the sealing step. The lifetime of a route, which the handlers send as 0 and do not
      read, and the padding byte of UREP's structure are part of them. */
  function Encode(b: Body, life: U16, pad: U8): seq<U8> {
    match b
    case Rreq(target) => Bytes4(target)
    case Rrep(target, numHops) => Bytes4(target) + Bytes2(life) + [numHops]
    case Rerr(reporter, broken, dest, packet) => Bytes4(reporter) + Bytes4(broken) + Bytes4(dest) + Bytes4(packet)
    case Data(dest, data) => Bytes4(dest) + data
    case Info(numAdded, numRemoved, ids) => Bytes2(numAdded) + Bytes2(numRemoved) + IdBytes(ids)
    case Ack(packet) => Bytes4(packet)
    case Ureq(user) => Bytes4(user)
    case Urep(node, user, numHops) => Bytes4(node) + Bytes4(user) + Bytes2(life) + [numHops, pad]
    case Uerr(user, node, packet) => Bytes4(user) + Bytes4(node) + Bytes4(packet)
    case UserMsg(fromUser, toUser, toNode, message) => Bytes4(fromUser) + Bytes4(toUser) + Bytes4(toNode) + message
    case MoveUser(user, oldNode) => Bytes4(user) + Bytes4(oldNode)
  }

  /** Extension header length the handlers read. */
  function Needs(kind: U8): nat {
    if kind == 0x02 then 7
    else if kind == 0x03 then 16
    else if kind == 0x10 then 11
    else if kind == 0x11 || kind == 0x12 then 12
    else if kind == 0x15 then 8
    else 4
  }

  function Decode(kind: U8, s: seq<U8>): Option<Body> {
    if |s| < Needs(kind) then None
    else if kind == 0x01 then Some(Rreq(Int4(s[..4])))
    else if kind == 0x02 then Some(Rrep(Int4(s[..4]), s[6]))
    else if kind == 0x03 then Some(Rerr(Int4(s[..4]), Int4(s[4..8]), Int4(s[8..12]), Int4(s[12..16])))
    else if kind == 0x04 then Some(Data(Int4(s[..4]), s[4..]))
    else if kind == 0x06 then Some(Info(Int2(s[..2]), Int2(s[2..4]), Ids(s[4..])))
    else if kind == 0x07 then Some(Ack(Int4(s[..4])))
    else if kind == 0x0F then Some(Ureq(Int4(s[..4])))
    else if kind == 0x10 then Some(Urep(Int4(s[..4]), Int4(s[4..8]), s[10]))
    else if kind == 0x11 then Some(Uerr(Int4(s[..4]), Int4(s[4..8]), Int4(s[8..12])))
    else if kind == 0x12 then Some(UserMsg(Int4(s[..4]), Int4(s[4..8]), Int4(s[8..12]), s[12..]))
    else if kind == 0x15 then Some(MoveUser(Int4(s[..4]), Int4(s[4..8])))
    else None
  }

  lemma {:induction false} IdsRoundTrip(ids: seq<U32>)
    ensures Ids(IdBytes(ids)) == ids && |IdBytes(ids)| == 4 * |ids|
  {
    if ids != [] {
      IdsRoundTrip(ids[1..]);
      Int4Bytes4(ids[0]);
      var s := Bytes4(ids[0]) + IdBytes(ids[1..]);
      assert s[..4] == Bytes4(ids[0]) && s[4..] == IdBytes(ids[1..]);
      hide Bytes4, Int4;
    }
  }

  /** The abstract length used for the size check is the number of bytes. */
  lemma EncodedLength(b: Body, life: U16, pad: U8)
    ensures |Encode(b, life, pad)| == BodyLen(b)
  {
    if b.Info? {
      IdsRoundTrip(b.ids);
    }
    hide Bytes4, Bytes2, IdBytes;
  }

  /** The packet type byte of each body, and where its fields lie. */
  predicate LaidOut(b: Body, kind: U8, s: seq<U8>) {
    match b
    case Rreq(target) => kind == 0x01 && |s| == 4 && FieldAt(s, 0, target)
    case Rrep(target, numHops) => kind == 0x02 && |s| == 7 && FieldAt(s, 0, target) && s[6] == numHops
    case Rerr(reporter, broken, dest, packet) =>
      && kind == 0x03 && |s| == 16
      && FieldAt(s, 0, reporter) && FieldAt(s, 4, broken) && FieldAt(s, 8, dest) && FieldAt(s, 12, packet)
    case Data(dest, data) => kind == 0x04 && |s| == 4 + |data| && FieldAt(s, 0, dest) && s[4..] == data
    case Info(added, removed, ids) =>
      && kind == 0x06 && |s| == 4 + 4 * |ids|
      && s[0] == added % 256 && s[1] == added / 256 && s[2] == removed % 256 && s[3] == removed / 256
      && forall i | 0 <= i < |ids| :: FieldAt(s, 4 + 4 * i, ids[i])
    case Ack(packet) => kind == 0x07 && |s| == 4 && FieldAt(s, 0, packet)
    case Ureq(user) => kind == 0x0F && |s| == 4 && FieldAt(s, 0, user)
    case Urep(node, user, numHops) => kind == 0x10 && |s| == 12 && FieldAt(s, 0, node) && FieldAt(s, 4, user) && s[10] == numHops
    case Uerr(user, node, packet) =>
      kind == 0x11 && |s| == 12 && FieldAt(s, 0, user) && FieldAt(s, 4, node) && FieldAt(s, 8, packet)
    case UserMsg(fromUser, toUser, toNode, message) =>
      && kind == 0x12 && |s| == 12 + |message|
      && FieldAt(s, 0, fromUser) && FieldAt(s, 4, toUser) && FieldAt(s, 8, toNode) && s[12..] == message
    case MoveUser(user, oldNode) => kind == 0x15 && |s| == 8 && FieldAt(s, 0, user) && FieldAt(s, 4, oldNode)
  }

  /** Up to four IDs at the front. */
  lemma IdsAt(w: U32, x: U32, y: U32, z: U32, rest: seq<U8>)
    ensures FieldAt(Bytes4(w) + rest, 0, w)
    ensures var s := Bytes4(w) + Bytes4(x) + rest; FieldAt(s, 0, w) && FieldAt(s, 4, x)
    ensures var s := Bytes4(w) + Bytes4(x) + Bytes4(y) + rest; FieldAt(s, 0, w) && FieldAt(s, 4, x) && FieldAt(s, 8, y)
    ensures var s := Bytes4(w) + Bytes4(x) + Bytes4(y) + Bytes4(z) + rest;
            FieldAt(s, 0, w) && FieldAt(s, 4, x) && FieldAt(s, 8, y) && FieldAt(s, 12, z)
  {
    hide Bytes4, FieldAt;
    var a, b, c, d := Bytes4(w), Bytes4(x), Bytes4(y), Bytes4(z);
    Bytes4At(w, [], rest);
    Bytes4At(w, [], b + rest);
    Bytes4At(x, a, rest);
    Bytes4At(w, [], b + c + rest);
    Bytes4At(x, a, c + rest);
    Bytes4At(y, a + b, rest);
    Bytes4At(w, [], b + c + d + rest);
    Bytes4At(x, a, c + d + rest);
    Bytes4At(y, a + b, d + rest);
    Bytes4At(z, a + b + c, rest);
    assert [] + a + rest == a + rest && [] + a + (b + rest) == a + b + rest;
    assert [] + a + (b + c + rest) == a + b + c + rest && a + b + (c + rest) == a + b + c + rest;
    assert [] + a + (b + c + d + rest) == a + b + c + d + rest && a + b + (c + d + rest) == a + b + c + d + rest;
    assert (a + b) + c + (d + rest) == a + b + c + d + rest;
  }

  lemma {:induction false} IdBytesAt(before: seq<U8>, ids: seq<U32>, i: nat)
    requires i < |ids|
    ensures |IdBytes(ids)| == 4 * |ids| && FieldAt(before + IdBytes(ids), |before| + 4 * i, ids[i])
    decreases |ids|
  {
    hide Bytes4, FieldAt;
    IdsRoundTrip(ids);
    var first, rest := Bytes4(ids[0]), IdBytes(ids[1..]);
    if i == 0 {
      Bytes4At(ids[0], before, rest);
      assert before + first + rest == before + IdBytes(ids);
    } else {
      IdBytesAt(before + first, ids[1..], i - 1);
      assert (before + first) + rest == before + IdBytes(ids);
    }
  }

  /** Every body is laid out so. */
  lemma BodyLayout(b: Body, life: U16, pad: U8)
    ensures LaidOut(b, PacketKind(b), Encode(b, life, pad))
  {
    hide Bytes4, FieldAt, IdBytes;
    EncodedLength(b, life, pad);
    var none: seq<U8> := [];
    match b
    case Rreq(target) => FirstAt(target);
    case Rrep(target, numHops) => IdsAt(target, 0, 0, 0, Bytes2(life) + [numHops]);
      assert Bytes4(target) + (Bytes2(life) + [numHops]) == Encode(b, life, pad);
    case Rerr(reporter, broken, dest, packet) => IdsAt(reporter, broken, dest, packet, none);
      assert Encode(b, life, pad) + none == Encode(b, life, pad);
    case Data(dest, data) => IdsAt(dest, 0, 0, 0, data);
    case Info(added, removed, ids) =>
      forall i | 0 <= i < |ids| ensures FieldAt(Encode(b, life, pad), 4 + 4 * i, ids[i]) {
        IdBytesAt(Bytes2(added) + Bytes2(removed), ids, i);
      }
    case Ack(packet) => FirstAt(packet);
    case Ureq(user) => FirstAt(user);
    case Urep(node, user, numHops) => IdsAt(node, user, 0, 0, Bytes2(life) + [numHops, pad]);
      assert Bytes4(node) + Bytes4(user) + (Bytes2(life) + [numHops, pad]) == Encode(b, life, pad);
    case Uerr(user, node, packet) => IdsAt(user, node, packet, 0, none);
      assert Encode(b, life, pad) + none == Encode(b, life, pad);
    case UserMsg(fromUser, toUser, toNode, message) => IdsAt(fromUser, toUser, toNode, 0, message);
    case MoveUser(user, oldNode) => IdsAt(user, oldNode, 0, 0, none);
      assert Encode(b, life, pad) + none == Encode(b, life, pad);
  }

  lemma FirstAt(x: U32)
    ensures FieldAt(Bytes4(x), 0, x)
  {
    Bytes4At(x, [], []);
    assert [] + Bytes4(x) + [] == Bytes4(x);
    hide Bytes4, FieldAt;
  }

  lemma Slices(a: seq<U8>, b: seq<U8>, c: seq<U8>, rest: seq<U8>)
    requires |a| == |b| == |c| == 4
    ensures var s := a + b + c + rest; s[..4] == a && s[4..8] == b && s[8..12] == c && s[12..] == rest
  {
  }

  /** Headers of three IDs. */
  lemma ThreeIds(x: U32, y: U32, z: U32, rest: seq<U8>)
    ensures var s := Bytes4(x) + Bytes4(y) + Bytes4(z) + rest;
            Int4(s[..4]) == x && Int4(s[4..8]) == y && Int4(s[8..12]) == z && s[12..] == rest
  {
    Slices(Bytes4(x), Bytes4(y), Bytes4(z), rest);
    Int4Bytes4(x);
    Int4Bytes4(y);
    Int4Bytes4(z);
    hide Bytes4, Int4;
  }

  lemma OneId(x: U32, rest: seq<U8>)
    ensures var s := Bytes4(x) + rest; Int4(s[..4]) == x && s[4..] == rest
  {
    Int4Bytes4(x);
    assert (Bytes4(x) + rest)[..4] == Bytes4(x);
    hide Bytes4, Int4;
  }

  lemma TwoIds(x: U32, y: U32, rest: seq<U8>)
    ensures var s := Bytes4(x) + Bytes4(y) + rest; Int4(s[..4]) == x && Int4(s[4..8]) == y && s[8..] == rest
  {
    Int4Bytes4(x);
    Int4Bytes4(y);
    var s := Bytes4(x) + Bytes4(y) + rest;
    assert s[..4] == Bytes4(x) && s[4..8] == Bytes4(y);
    hide Bytes4, Int4;
  }

  lemma InfoRoundTrip(p: U16, q: U16, ids: seq<U32>)
    ensures var s := Bytes2(p) + Bytes2(q) + IdBytes(ids);
            Int2(s[..2]) == p && Int2(s[2..4]) == q && Ids(s[4..]) == ids
  {
    Int2Bytes2(p);
    Int2Bytes2(q);
    IdsRoundTrip(ids);
    var s := Bytes2(p) + Bytes2(q) + IdBytes(ids);
    assert s[..2] == Bytes2(p) && s[2..4] == Bytes2(q) && s[4..] == IdBytes(ids);
    hide Bytes2, Int2, IdBytes, Ids;
  }

  /** Every body is read back from its bytes. */
  lemma BodyRoundTrip(b: Body, life: U16, pad: U8)
    ensures Decode(PacketKind(b), Encode(b, life, pad)) == Some(b)
  {
    EncodedLength(b, life, pad);
    var s := Encode(b, life, pad);
    hide Bytes4, Int4, Bytes2, Int2, IdBytes, Ids;
    match b
    case Rreq(t) =>
      OneId(t, []);
      assert s == Bytes4(t) + [];
    case Rrep(t, h) =>
      OneId(t, Bytes2(life) + [h]);
      assert s == Bytes4(t) + (Bytes2(life) + [h]);
    case Rerr(x, y, z, w) =>
      ThreeIds(x, y, z, Bytes4(w));
      Int4Bytes4(w);
      assert s[12..16] == s[12..];
    case Data(t, d) => OneId(t, d);
    case Info(p, q, ids) => InfoRoundTrip(p, q, ids);
    case Ack(p) =>
      OneId(p, []);
      assert s == Bytes4(p) + [];
    case Ureq(u) =>
      OneId(u, []);
      assert s == Bytes4(u) + [];
    case Urep(x, y, h) =>
      TwoIds(x, y, Bytes2(life) + [h, pad]);
      assert s == Bytes4(x) + Bytes4(y) + (Bytes2(life) + [h, pad]);
    case Uerr(x, y, z) =>
      ThreeIds(x, y, z, []);
      assert s == Bytes4(x) + Bytes4(y) + Bytes4(z) + [];
    case UserMsg(x, y, z, m) => ThreeIds(x, y, z, m);
    case MoveUser(x, y) =>
      TwoIds(x, y, []);
      assert s == Bytes4(x) + Bytes4(y) + [];
  }

  // ---------- whole frames ----------

  function HeaderOf(f: Frame): Header {
    Header(f.dest, f.prev, f.origin, f.id, PacketKind(f.body), f.flags, f.hops, 0)
  }

  function FrameOf(h: Header, plain: seq<U8>): Option<Frame> {
    match Decode(h.kind, plain)
    case None => None
    case Some(b) => Some(Frame(h.dest, h.prev, h.origin, h.id, h.flags, h.hops, b))
  }

  function SealFrame(a: Aead, f: Frame, life: U16, pad: U8): Option<seq<U8>> {
    Sealed(a, HeaderOf(f), Encode(f.body, life, pad), [])
  }

  function OpenFrame(a: Aead, w: seq<U8>): Option<Frame> {
    match Opened(a, w)
    case None => None
    case Some(o) => FrameOf(o.0, o.1)
  }

  /** Sealing refuses exactly the oversize frames, and a receiver reads every other frame as the
      network model says: as it was, with bit 7 of its flags clear. */
  lemma FrameRoundTrip(a: Aead, f: Frame, life: U16, pad: U8)
    requires Inverse(a)
    ensures SealFrame(a, f, life, pad) == None <==> Oversize(f.body)
    ensures !Oversize(f.body) ==> OpenFrame(a, SealFrame(a, f, life, pad).value) == Some(OnAir(f))
  {
    EncodedLength(f.body, life, pad);
    BodyRoundTrip(f.body, life, pad);
    SealRoundTrip(a, HeaderOf(f), Encode(f.body, life, pad), []);
    assert Encode(f.body, life, pad) + [] == Encode(f.body, life, pad);
    hide Encode, Decode, PacketKind, Sealed, Opened;
  }

  /** How long a text may be: 223 bytes between nodes, 215 between users. Everything the phone
      handler accepts (at most 200 bytes) fits. */
  lemma TextFits(node: U32, a: U32, b: U32, text: seq<U8>)
    ensures !Oversize(Data(node, text)) <==> |text| <= 223
    ensures !Oversize(UserMsg(a, b, node, text)) <==> |text| <= 215
  {
  }
}
