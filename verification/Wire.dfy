/** Frames as bytes: headers, sealing, and what a receiver makes of them. */
module Wire {
  import opened Packets

  datatype Option<T> = None | Some(value: T)

  const NONCE_LEN := 12

  /** The 20-byte base header, in field order. */
  datatype Header = Header(dest: U32, prev: U32, origin: U32, id: U32, kind: U8, flags: U8, hops: U8, reserved: U8)

  // ---------- little-endian integers ----------

  function Bytes4(x: U32): (s: seq<U8>)
    ensures |s| == 4
  {
    var a := x / 256;
    var b := a / 256;
    [x % 256, a % 256, b % 256, b / 256]
  }

  function Int4(s: seq<U8>): U32
    requires |s| == 4
  {
    s[0] as int + 256 * (s[1] as int + 256 * (s[2] as int + 256 * (s[3] as int)))
  }

  lemma Int4Bytes4(x: U32)
    ensures Int4(Bytes4(x)) == x
  {
  }

  function Bytes2(x: U16): (s: seq<U8>)
    ensures |s| == 2
  {
    [x % 256, x / 256]
  }

  function Int2(s: seq<U8>): U16
    requires |s| == 2
  {
    s[0] as int + 256 * (s[1] as int)
  }

  // ---------- base header ----------

  function HeaderBytes(h: Header): (s: seq<U8>)
    ensures |s| == BASE_HDR
  {
    Bytes4(h.dest) + Bytes4(h.prev) + Bytes4(h.origin) + Bytes4(h.id) + [h.kind, h.flags, h.hops, h.reserved]
  }

  function ParseHeader(s: seq<U8>): Header
    requires |s| >= BASE_HDR
  {
    Header(Int4(s[0..4]), Int4(s[4..8]), Int4(s[8..12]), Int4(s[12..16]), s[16], s[17], s[18], s[19])
  }

  lemma HeaderRoundTrip(h: Header, rest: seq<U8>)
    ensures ParseHeader(HeaderBytes(h) + rest) == h
  {
    var s := HeaderBytes(h) + rest;
    assert s[0..4] == Bytes4(h.dest) && s[4..8] == Bytes4(h.prev) && s[8..12] == Bytes4(h.origin) && s[12..16] == Bytes4(h.id);
    Int4Bytes4(h.dest);
    Int4Bytes4(h.prev);
    Int4Bytes4(h.origin);
    Int4Bytes4(h.id);
    hide Bytes4, Int4;
  }

  lemma {:induction false} ParseRoundTrip(s: seq<U8>)
    requires |s| >= BASE_HDR
    ensures HeaderBytes(ParseHeader(s)) == s[..BASE_HDR]
  {
    Bytes4Int4(s[0..4]);
    Bytes4Int4(s[4..8]);
    Bytes4Int4(s[8..12]);
    Bytes4Int4(s[12..16]);
    hide Bytes4, Int4;
  }

  lemma Bytes4Int4(s: seq<U8>)
    requires |s| == 4
    ensures Bytes4(Int4(s)) == s
  {
    var a: int := s[1] as int + 256 * (s[2] as int + 256 * (s[3] as int));
    assert Int4(s) == s[0] as int + 256 * a;
    assert Int4(s) % 256 == s[0] && Int4(s) / 256 == a;
  }

  lemma Int2Bytes2(x: U16)
    ensures Int2(Bytes2(x)) == x
  {
  }

  /** The four bytes from offset i on are x, least significant first. */
  predicate FieldAt(s: seq<U8>, i: nat, x: U32)
    requires i + 4 <= |s|
  {
    s[i] == x % 0x100 && s[i + 1] == x / 0x100 % 0x100 && s[i + 2] == x / 0x1_0000 % 0x100 && s[i + 3] == x / 0x100_0000
  }

  lemma Bytes4At(x: U32, before: seq<U8>, rest: seq<U8>)
    ensures FieldAt(before + Bytes4(x) + rest, |before|, x)
  {
    var s, i := before + Bytes4(x) + rest, |before|;
    assert s[i] == Bytes4(x)[0] && s[i + 1] == Bytes4(x)[1] && s[i + 2] == Bytes4(x)[2] && s[i + 3] == Bytes4(x)[3];
    Quotients(x);
  }

  lemma Quotients(x: U32)
    ensures x / 256 / 256 == x / 0x1_0000 && x / 256 / 256 / 256 == x / 0x100_0000
  {
  }

  /** Where each field of the base header lies in its 20 bytes, and of the 12 nonce bytes. */
  lemma HeaderLayout(h: Header)
    ensures var s := HeaderBytes(h);
            && FieldAt(s, 0, h.dest) && FieldAt(s, 4, h.prev) && FieldAt(s, 8, h.origin) && FieldAt(s, 12, h.id)
            && s[16] == h.kind && s[17] == h.flags && s[18] == h.hops && s[19] == h.reserved
    ensures var s := Nonce(h);
            && FieldAt(s, 0, h.origin) && FieldAt(s, 4, h.id) && s[8] == h.hops && s[9] == h.kind && s[10] == s[11] == 0
  {
    hide Bytes4, FieldAt;
    var a, b, c, d := Bytes4(h.dest), Bytes4(h.prev), Bytes4(h.origin), Bytes4(h.id);
    var last, tail := [h.kind, h.flags, h.hops, h.reserved], [h.hops, h.kind, 0, 0];
    Bytes4At(h.dest, [], b + c + d + last);
    Bytes4At(h.prev, a, c + d + last);
    Bytes4At(h.origin, a + b, d + last);
    Bytes4At(h.id, a + b + c, last);
    assert [] + a + (b + c + d + last) == HeaderBytes(h) && a + b + (c + d + last) == HeaderBytes(h);
    assert (a + b) + c + (d + last) == HeaderBytes(h) && (a + b + c) + d + last == HeaderBytes(h);
    Bytes4At(h.origin, [], d + tail);
    Bytes4At(h.id, c, tail);
    assert [] + c + (d + tail) == Nonce(h) && c + d + tail == Nonce(h);
  }

  /** Fields at their offsets; the loop of a memory copy. */
  method CopyIn(src: seq<U8>, buffer: array<U8>, offset: nat)
    requires offset + |src| <= buffer.Length
    modifies buffer
    ensures buffer[..] == old(buffer[..offset]) + src + old(buffer[offset + |src|..])
  {
    for i := 0 to |src|
      invariant forall j | 0 <= j < buffer.Length ::
        buffer[j] == if offset <= j < offset + i then src[j - offset] else old(buffer[j])
    {
      buffer[offset + i] := src[i];
    }
  }

  method SerialiseBaseHeader(h: Header, buffer: array<U8>) returns (offset: nat)
    requires buffer.Length >= BASE_HDR
    modifies buffer
    ensures offset == BASE_HDR
    ensures buffer[..] == HeaderBytes(h) + old(buffer[BASE_HDR..])
  {
    hide Bytes4;
    ghost var start := buffer[..];
    offset := 0;
    CopyIn(Bytes4(h.dest), buffer, offset);
    offset := offset + 4;
    assert buffer[..] == Bytes4(h.dest) + start[4..];
    CopyIn(Bytes4(h.prev), buffer, offset);
    offset := offset + 4;
    assert buffer[..] == Bytes4(h.dest) + Bytes4(h.prev) + start[8..];
    CopyIn(Bytes4(h.origin), buffer, offset);
    offset := offset + 4;
    assert buffer[..] == Bytes4(h.dest) + Bytes4(h.prev) + Bytes4(h.origin) + start[12..];
    CopyIn(Bytes4(h.id), buffer, offset);
    offset := offset + 4;
    assert buffer[..] == Bytes4(h.dest) + Bytes4(h.prev) + Bytes4(h.origin) + Bytes4(h.id) + start[16..];
    CopyIn([h.kind, h.flags, h.hops, h.reserved], buffer, offset);
    offset := offset + 4;
  }

  method DeserialiseBaseHeader(buffer: array<U8>) returns (h: Header, offset: nat)
    requires buffer.Length >= BASE_HDR
    ensures h == ParseHeader(buffer[..]) && offset == BASE_HDR
  {
    h := Header(Int4(buffer[0..4]), Int4(buffer[4..8]), Int4(buffer[8..12]), Int4(buffer[12..16]),
                buffer[16], buffer[17], buffer[18], buffer[19]);
    offset := 20;
    assert buffer[..][0..4] == buffer[0..4] && buffer[..][4..8] == buffer[4..8];
    assert buffer[..][8..12] == buffer[8..12] && buffer[..][12..16] == buffer[12..16];
  }

  // ---------- sealing ----------

  /** flags | FLAG_ENCRYPTED */
  function SetEnc(flags: U8): U8 {
    if flags >= 128 then flags else flags + 128
  }

  /** flags & FLAG_ENCRYPTED */
  predicate HasEnc(flags: U8) {
    flags >= 128
  }

  /** Authenticated encryption as a pair of functions: seal(nonce, header, plain) gives cipher text
      and tag, open(nonce, header, cipher, tag) gives the plain text or refuses. */
  datatype Aead = Aead(
    seal: (seq<U8>, seq<U8>, seq<U8>) -> (seq<U8>, seq<U8>),
    open: (seq<U8>, seq<U8>, seq<U8>, seq<U8>) -> Option<seq<U8>>)

  /** Opening inverts sealing; plain text and cipher text have the same length, and the tag has its own. */
  ghost predicate Inverse(a: Aead) {
    && (forall nonce, aad, plain ::
          var c := a.seal(nonce, aad, plain);
          |c.0| == |plain| && |c.1| == TAG_LEN && a.open(nonce, aad, c.0, c.1) == Some(plain))
    && (forall nonce, aad, cipher, tag ::
          var p := a.open(nonce, aad, cipher, tag);
          p.Some? ==> |p.value| == |cipher|)
  }

  function Nonce(h: Header): (s: seq<U8>)
    ensures |s| == NONCE_LEN
  {
    Bytes4(h.origin) + Bytes4(h.id) + [h.hops, h.kind, 0, 0]
  }

  method BuildNonce(h: Header, nonce: array<U8>)
    requires nonce.Length == NONCE_LEN
    modifies nonce
    ensures nonce[..] == Nonce(h)
  {
    hide Bytes4;
    ghost var start := nonce[..];
    CopyIn(Bytes4(h.origin), nonce, 0);
    assert nonce[..] == Bytes4(h.origin) + start[4..];
    CopyIn(Bytes4(h.id), nonce, 4);
    assert nonce[..] == Bytes4(h.origin) + Bytes4(h.id) + start[8..];
    nonce[8], nonce[9], nonce[10], nonce[11] := h.hops, h.kind, 0, 0;
  }

  /** The bytes given to the radio queue, if they fit. */
  function Sealed(a: Aead, h: Header, ext: seq<U8>, payload: seq<U8>): Option<seq<U8>> {
    var out := h.(flags := SetEnc(h.flags));
    var c := a.seal(Nonce(out), HeaderBytes(out), ext + payload);
    if BASE_HDR + |ext| + |payload| + TAG_LEN > MAX_BUF then None else Some(HeaderBytes(out) + c.0 + c.1)
  }

  /** transmitPacket up to the radio queue, over its two fixed buffers. */
  method Seal(a: Aead, h: Header, ext: seq<U8>, payload: seq<U8>) returns (r: Option<seq<U8>>)
    requires Inverse(a)
    requires |ext| + |payload| <= MAX_BUF
    ensures r == Sealed(a, h, ext, payload)
  {
    hide Bytes4, HeaderBytes, Nonce;
    var out := h.(flags := SetEnc(h.flags));
    var buffer := new U8[MAX_BUF];
    var offset := SerialiseBaseHeader(out, buffer);
    assert buffer[..offset] == HeaderBytes(out);
    var plain := new U8[MAX_BUF];
    CopyIn(ext, plain, 0);
    var plainLen := |ext|;
    assert plain[..plainLen] == ext;
    CopyIn(payload, plain, plainLen);
    plainLen := plainLen + |payload|;
    assert plain[..plainLen] == ext + payload;
    if offset + plainLen + TAG_LEN > buffer.Length {
      return None;
    }
    var nonce := new U8[NONCE_LEN];
    BuildNonce(out, nonce);
    var c := a.seal(nonce[..], buffer[..BASE_HDR], plain[..plainLen]);
    CopyIn(c.0, buffer, offset);
    CopyIn(c.1, buffer, offset + plainLen);
    offset := offset + plainLen + TAG_LEN;
    r := Some(buffer[..offset]);
  }

  /** What a receiver gets from a frame's bytes: header with the encryption bit cleared, and plain text. */
  function Opened(a: Aead, s: seq<U8>): Option<(Header, seq<U8>)> {
    if |s| < BASE_HDR then None
    else
      var h := ParseHeader(s);
      if !HasEnc(h.flags) then Some((h, s[BASE_HDR..]))
      else if |s| < BASE_HDR + TAG_LEN then None
      else
        match a.open(Nonce(h), s[..BASE_HDR], s[BASE_HDR..|s| - TAG_LEN], s[|s| - TAG_LEN..])
        case None => None
        case Some(plain) => Some((h.(flags := ClearEnc(h.flags)), plain))
  }

  lemma NonceIgnoresFlags(h: Header, flags: U8)
    ensures Nonce(h.(flags := flags)) == Nonce(h)
  {
  }

  lemma OpenSealed(a: Aead, h: Header, plain: seq<U8>)
    requires Inverse(a) && HasEnc(h.flags)
    ensures var c := a.seal(Nonce(h), HeaderBytes(h), plain);
            Opened(a, HeaderBytes(h) + c.0 + c.1) == Some((h.(flags := ClearEnc(h.flags)), plain))
  {
    var c := a.seal(Nonce(h), HeaderBytes(h), plain);
    var s := HeaderBytes(h) + c.0 + c.1;
    assert s == HeaderBytes(h) + (c.0 + c.1);
    HeaderRoundTrip(h, c.0 + c.1);
    hide HeaderBytes, ParseHeader, Nonce;
    assert s[..BASE_HDR] == HeaderBytes(h) && s[BASE_HDR..|s| - TAG_LEN] == c.0 && s[|s| - TAG_LEN..] == c.1;
  }

  lemma EncBits(flags: U8)
    ensures HasEnc(SetEnc(flags)) && ClearEnc(SetEnc(flags)) == ClearEnc(flags)
    ensures ClearEnc(flags) == flags <==> !HasEnc(flags)
  {
  }

  /** A frame is sent if and only if it fits in 255 bytes with header and tag; the receiver rebuilds the
      sender's nonce, and gets back the header and the plain text. The header comes back unchanged if and
      only if bit 7 of its flags was clear. */
  lemma SealRoundTrip(a: Aead, h: Header, ext: seq<U8>, payload: seq<U8>)
    requires Inverse(a)
    ensures Sealed(a, h, ext, payload).Some? <==> BASE_HDR + |ext| + |payload| + TAG_LEN <= MAX_BUF
    ensures var w := Sealed(a, h, ext, payload);
            w.Some? ==>
              && |w.value| == BASE_HDR + |ext| + |payload| + TAG_LEN
              && Nonce(ParseHeader(w.value)) == Nonce(h)
              && Opened(a, w.value) == Some((h.(flags := ClearEnc(h.flags)), ext + payload))
              && (Opened(a, w.value) == Some((h, ext + payload)) <==> !HasEnc(h.flags))
  {
    var out := h.(flags := SetEnc(h.flags));
    EncBits(h.flags);
    OpenSealed(a, out, ext + payload);
    var c := a.seal(Nonce(out), HeaderBytes(out), ext + payload);
    assert HeaderBytes(out) + c.0 + c.1 == HeaderBytes(out) + (c.0 + c.1);
    HeaderRoundTrip(out, c.0 + c.1);
    NonceIgnoresFlags(h, SetEnc(h.flags));
    hide HeaderBytes, ParseHeader, Nonce, ClearEnc, SetEnc, HasEnc, Opened;
  }

  /** handlePacket's decryption, in the received buffer: on success the buffer holds the frame as if it
      had been sent in the clear, the cleared flags written back at their own offset. */
  method OpenInPlace(a: Aead, data: array<U8>, len: nat) returns (r: Option<Header>, newLen: nat)
    requires len <= data.Length && Inverse(a)
    modifies data
    ensures newLen <= len
    ensures match Opened(a, old(data[..len]))
            case None => r == None
            case Some(o) => r == Some(o.0) && data[..newLen] == HeaderBytes(o.0) + o.1
  {
    newLen := len;
    if len < BASE_HDR {
      return None, newLen;
    }
    ghost var s := data[..len];
    ParseRoundTrip(s);
    var h := ReadHeader(data, len);
    if !HasEnc(h.flags) {
      assert s == s[..BASE_HDR] + s[BASE_HDR..];
      return Some(h), newLen;
    }
    if len < BASE_HDR + TAG_LEN {
      return None, newLen;
    }
    assert data[..BASE_HDR] == s[..BASE_HDR];
    assert data[BASE_HDR..len - TAG_LEN] == s[BASE_HDR..len - TAG_LEN] && data[len - TAG_LEN..len] == s[len - TAG_LEN..];
    hide HeaderBytes, ParseHeader, Nonce;
    var plain := a.open(Nonce(h), data[..BASE_HDR], data[BASE_HDR..len - TAG_LEN], data[len - TAG_LEN..len]);
    if plain == None {
      return None, newLen;
    }
    CopyIn(plain.value, data, BASE_HDR);
    newLen := len - TAG_LEN;
    WriteFlags(data, newLen, h, plain.value);
    r := Some(h.(flags := ClearEnc(h.flags)));
  }

  /** The cleared flags byte goes back into the buffer at its offset. */
  method WriteFlags(data: array<U8>, len: nat, h: Header, plain: seq<U8>)
    requires len <= data.Length && data[..len] == HeaderBytes(h) + plain
    modifies data
    ensures data[..len] == HeaderBytes(h.(flags := ClearEnc(h.flags))) + plain
  {
    data[BASE_HDR - 3] := ClearEnc(h.flags);
    FlagsOffset(h, ClearEnc(h.flags));
    hide HeaderBytes, ClearEnc;
  }

  method ReadHeader(data: array<U8>, len: nat) returns (h: Header)
    requires BASE_HDR <= len <= data.Length
    ensures h == ParseHeader(data[..len])
  {
    var offset;
    h, offset := DeserialiseBaseHeader(data);
    assert data[..][0..4] == data[..len][0..4];
    assert data[..][4..8] == data[..len][4..8];
    assert data[..][8..12] == data[..len][8..12];
    assert data[..][12..16] == data[..len][12..16];
  }

  /** The flags sit three bytes before the end of the header. */
  lemma FlagsOffset(h: Header, flags: U8)
    ensures HeaderBytes(h.(flags := flags)) == HeaderBytes(h)[BASE_HDR - 3 := flags]
  {
    hide Bytes4;
  }
}
