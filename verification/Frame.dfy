/** The frame layer: frame.cpp, and the buffering loop of TcpSocket::recv_frame in net.cpp. */
module Frame {
  import opened Prelude
  import opened Wire
  import opened Fnv

  const HEADER: nat := 22
  const PROTO_VERSION: byte := 1
  const MAX_PAYLOAD: nat := 1048576
  const MAX_KIND: byte := 27

  /** `kind` is the MessageType byte; the payload is opaque here. */
  datatype Message = Message(kind: byte, epoch: u32, authority: u32, payload: bytes)

  datatype FrameError = BadMagic | UnsupportedVersion | InvalidType | OversizedPayload | ChecksumMismatch

  /** decode_frame's three outcomes: true; false without an error text; false with one. */
  datatype Decoded = Got(m: Message, used: nat) | NeedMore | Bad(error: FrameError)

  /** The messages that the format can carry. */
  predicate Carried(m: Message)
  {
    1 <= m.kind <= MAX_KIND && |m.payload| <= MAX_PAYLOAD
  }

  function Checksum(payload: bytes): (c: u32)
  {
    Constants();
    HashFromBounded(FNV32, FNV32.offset, payload);
    Hash(FNV32, payload)
  }

  function Head(m: Message): (h: bytes)
    ensures |h| == HEADER
  {
    [0x45, 0x52, 0x46, 0x46, PROTO_VERSION, m.kind] + Le(m.epoch, 4) + Le(m.authority, 4)
    + Le(|m.payload| % TWO32, 4) + Le(Checksum(m.payload), 4)
  }

  function Encode(m: Message): bytes
  {
    Head(m) + m.payload
  }

  function Field(d: bytes, at: nat): (v: u32)
    requires at + 4 <= |d|
  {
    Widths();
    FromLeBounded(d[at..at + 4]);
    FromLe(d[at..at + 4])
  }

  function Decode(d: bytes): Decoded
  {
    if |d| < HEADER then NeedMore
    else if d[..4] != [0x45, 0x52, 0x46, 0x46] then Bad(BadMagic)
    else if d[4] != PROTO_VERSION then Bad(UnsupportedVersion)
    else if d[5] < 1 || d[5] > MAX_KIND then Bad(InvalidType)
    else
      var plen := Field(d, 14);
      if plen > MAX_PAYLOAD then Bad(OversizedPayload)
      else if HEADER + plen > |d| then NeedMore
      else
        var payload := d[HEADER..HEADER + plen];
        if Checksum(payload) != Field(d, 18) then Bad(ChecksumMismatch)
        else Got(Message(d[5], Field(d, 6), Field(d, 10), payload), HEADER + plen)
  }

  /* ---- the two routines ---- */

  lemma ChecksumIsHash(p: bytes)
    ensures Checksum(p) == Hash(FNV32, p)
  {
    hide Hash;
  }

  method PutU32Into(out: bytes, v: u32) returns (res: bytes)
    ensures res == out + Le(v, 4)
  {
    res := out + [v % 256] + [v / 256 % 256] + [v / 65536 % 256] + [v / 16777216 % 256];
    assert Le(v, 4) == [v % 256] + Le(v / 256, 3);
    assert Le(v / 256, 3) == [v / 256 % 256] + Le(v / 65536, 2);
    assert Le(v / 65536, 2) == [v / 65536 % 256] + Le(v / 16777216, 1);
    assert Le(v / 16777216, 1) == [v / 16777216 % 256] + Le(v / 16777216 / 256, 0);
  }

  method PutPreamble(out: bytes, kind: byte) returns (res: bytes)
    ensures res == out + [0x45, 0x52, 0x46, 0x46, PROTO_VERSION, kind]
  {
    res := out + [0x45] + [0x52] + [0x46] + [0x46];
    res := res + [PROTO_VERSION];
    res := res + [kind];
  }

  lemma Regroup(out: bytes, a: bytes, b: bytes)
    ensures out + a + b == out + (a + b)
  {
  }

  /** encode_frame appends to `out` and checks nothing. */
  method EncodeFrame(m: Message, out: bytes) returns (res: bytes)
    ensures res == out + Encode(m)
  {
    var chk := ProtoChecksum(m.payload);
    ChecksumIsHash(m.payload);
    hide Le, Hash, Checksum;
    res := PutPreamble(out, m.kind);
    ghost var h: bytes := [0x45, 0x52, 0x46, 0x46, PROTO_VERSION, m.kind];
    Regroup(out, h, Le(m.epoch, 4));
    res := PutU32Into(res, m.epoch);
    h := h + Le(m.epoch, 4);
    Regroup(out, h, Le(m.authority, 4));
    res := PutU32Into(res, m.authority);
    h := h + Le(m.authority, 4);
    Regroup(out, h, Le(|m.payload| % TWO32, 4));
    res := PutU32Into(res, |m.payload| % TWO32);
    h := h + Le(|m.payload| % TWO32, 4);
    Regroup(out, h, Le(chk, 4));
    res := PutU32Into(res, chk);
    h := h + Le(chk, 4);
    Regroup(out, h, m.payload);
    res := res + m.payload;
  }

  lemma FourBytes(b: bytes)
    requires |b| == 4
    ensures (b[0] as nat) + (b[1] as nat) * 256 + (b[2] as nat) * 65536 + (b[3] as nat) * 16777216 == FromLe(b)
  {
    assert b[1..][1..] == b[2..] && b[2..][1..] == b[3..] && b[3..][1..] == [];
    assert FromLe(b[3..]) == b[3] && FromLe(b[2..]) == (b[2] as nat) + 256 * FromLe(b[3..]);
    assert FromLe(b[1..]) == (b[1] as nat) + 256 * FromLe(b[2..]);
  }

  method GetU32At(d: bytes, at: nat) returns (v: u32)
    requires at + 4 <= |d|
    ensures v == Field(d, at)
  {
    var p0: nat, p1: nat, p2: nat, p3: nat := d[at], d[at + 1], d[at + 2], d[at + 3];
    var sum: nat := p0 + p1 * 256 + p2 * 65536 + p3 * 16777216;
    FourBytes(d[at..at + 4]);
    v := sum;
  }

  method DecodeFrame(d: bytes) returns (res: Decoded)
    ensures res == Decode(d)
  {
    if |d| < HEADER {
      return NeedMore;
    }
    if d[0] != 0x45 || d[1] != 0x52 || d[2] != 0x46 || d[3] != 0x46 {
      return Bad(BadMagic);
    }
    if d[4] != PROTO_VERSION {
      return Bad(UnsupportedVersion);
    }
    var kind := d[5];
    if kind < 1 || kind > 27 {
      return Bad(InvalidType);
    }
    var epoch := GetU32At(d, 6);
    var authority := GetU32At(d, 10);
    var plen := GetU32At(d, 14);
    var chk := GetU32At(d, 18);
    if plen > MAX_PAYLOAD {
      return Bad(OversizedPayload);
    }
    if HEADER + plen > |d| {
      return NeedMore;
    }
    var payload := d[HEADER..HEADER + plen];
    var actual := ProtoChecksum(payload);
    if actual != chk {
      return Bad(ChecksumMismatch);
    }
    return Got(Message(kind, epoch, authority, payload), HEADER + plen);
  }

  /* ---- one frame ---- */

  lemma HeadFields(m: Message, t: bytes)
    ensures var d := Head(m) + t;
      && d[..4] == [0x45, 0x52, 0x46, 0x46] && d[4] == PROTO_VERSION && d[5] == m.kind
      && Field(d, 6) == m.epoch && Field(d, 10) == m.authority
      && Field(d, 14) == |m.payload| % TWO32 && Field(d, 18) == Checksum(m.payload)
  {
    hide Checksum;
    var d := Head(m) + t;
    assert d[6..10] == Le(m.epoch, 4) && d[10..14] == Le(m.authority, 4);
    assert d[14..18] == Le(|m.payload| % TWO32, 4) && d[18..22] == Le(Checksum(m.payload), 4);
    hide Head, Le;
    FieldHolds(d, 6, m.epoch);
    FieldHolds(d, 10, m.authority);
    FieldHolds(d, 14, |m.payload| % TWO32);
    FieldHolds(d, 18, Checksum(m.payload));
  }

  lemma FieldHolds(d: bytes, at: nat, v: u32)
    requires at + 4 <= |d| && d[at..at + 4] == Le(v, 4)
    ensures Field(d, at) == v
  {
    Widths();
    LeRoundTrip(v, 4);
  }

  /** decode_frame on a buffer whose magic, version and length announce the payload p. */
  lemma Announced(d: bytes, p: bytes)
    requires |d| >= HEADER + |p| && d[..4] == [0x45, 0x52, 0x46, 0x46] && d[4] == PROTO_VERSION
    requires Field(d, 14) == |p| <= MAX_PAYLOAD && d[HEADER..HEADER + |p|] == p
    ensures Decode(d) == if d[5] < 1 || d[5] > MAX_KIND then Bad(InvalidType)
                         else if Checksum(p) != Field(d, 18) then Bad(ChecksumMismatch)
                         else Got(Message(d[5], Field(d, 6), Field(d, 10), p), HEADER + |p|)
  {
    hide Checksum, Field;
  }

  lemma CarriedAnnounced(m: Message, d: bytes)
    requires Carried(m) && |d| >= HEADER + |m.payload|
    requires d[..4] == [0x45, 0x52, 0x46, 0x46] && d[4] == PROTO_VERSION && d[5] == m.kind
    requires Field(d, 6) == m.epoch && Field(d, 10) == m.authority
    requires Field(d, 14) == |m.payload| % TWO32 && Field(d, 18) == Checksum(m.payload)
    requires d[HEADER..HEADER + |m.payload|] == m.payload
    ensures Decode(d) == Got(m, HEADER + |m.payload|)
  {
    hide Decode, Field, Checksum;
    Announced(d, m.payload);
  }

  lemma PayloadAt(h: bytes, p: bytes, t: bytes)
    ensures (h + (p + t))[|h|..|h| + |p|] == p
  {
  }

  lemma EncodeShape(m: Message, t: bytes)
    ensures |Encode(m)| == HEADER + |m.payload| && Encode(m) + t == Head(m) + (m.payload + t)
  {
    hide Head;
  }

  lemma CarriedArrives(m: Message, t: bytes)
    requires Carried(m)
    ensures Decode(Encode(m) + t) == Got(m, |Encode(m)|)
  {
    hide *;
    var d := Encode(m) + t;
    EncodeShape(m, t);
    HeadFields(m, m.payload + t);
    PayloadAt(Head(m), m.payload, t);
    CarriedAnnounced(m, d);
  }

  /** An encoding is decoded to its message, whatever follows, exactly when the format carries it. */
  lemma RoundTrip(m: Message, t: bytes)
    ensures Decode(Encode(m) + t) == Got(m, |Encode(m)|) <==> Carried(m)
  {
    hide *;
    if Carried(m) {
      CarriedArrives(m, t);
    } else if Decode(Encode(m) + t).Got? {
      UsedWithin(Encode(m) + t);
    }
  }

  /** Once decode_frame has decided, more input does not change its mind. */
  lemma DecisionStable(d: bytes, t: bytes)
    requires !Decode(d).NeedMore?
    ensures Decode(d + t) == Decode(d)
  {
    assert (d + t)[..4] == d[..4] && (d + t)[6..10] == d[6..10] && (d + t)[10..14] == d[10..14];
    assert (d + t)[14..18] == d[14..18] && (d + t)[18..22] == d[18..22];
    var plen := Field(d, 14);
    if HEADER + plen <= |d| {
      assert (d + t)[HEADER..HEADER + plen] == d[HEADER..HEADER + plen];
    }
    hide Checksum;
  }

  /** Any strict prefix of an encoding asks for more and reports no error. */
  lemma PrefixNeedsMore(m: Message, n: nat)
    requires Carried(m) && n < |Encode(m)|
    ensures Decode(Encode(m)[..n]) == NeedMore
  {
    hide *;
    RoundTrip(m, []);
    var d, p, t := Encode(m), Encode(m)[..n], Encode(m)[n..];
    assert d + [] == d && p + t == d;
    if !Decode(p).NeedMore? {
      DecisionStable(p, t);
      UsedWithin(p);
    }
  }

  lemma UsedWithin(d: bytes)
    requires Decode(d).Got?
    ensures HEADER <= Decode(d).used <= |d| && Carried(Decode(d).m)
  {
  }

  lemma FieldsApart(d: bytes, g: bytes, i: nat, at: nat)
    requires Substituted(d, g, i) && at + 4 <= |d|
    ensures Field(g, at) == Field(d, at) <==> !(at <= i < at + 4)
  {
    if at <= i < at + 4 {
      assert d[at..at + 4][i - at] != g[at..at + 4][i - at];
      if Field(g, at) == Field(d, at) {
        FromLeInjective(g[at..at + 4], d[at..at + 4]);
      }
    } else {
      assert g[at..at + 4] == d[at..at + 4];
    }
  }

  /** What a substitution leaves alone: every 32-bit field that does not contain position i. */
  lemma SubstitutedFields(m: Message, g: bytes, i: nat)
    requires Substituted(Encode(m), g, i)
    ensures |g| == HEADER + |m.payload|
    ensures g[..4] == [0x45, 0x52, 0x46, 0x46] <==> 4 <= i
    ensures i != 4 <==> g[4] == PROTO_VERSION
    ensures i != 5 <==> g[5] == m.kind
    ensures Field(g, 6) == m.epoch <==> !(6 <= i < 10)
    ensures Field(g, 10) == m.authority <==> !(10 <= i < 14)
    ensures Field(g, 14) == |m.payload| % TWO32 <==> !(14 <= i < 18)
    ensures Field(g, 18) == Checksum(m.payload) <==> !(18 <= i < 22)
    ensures i < HEADER ==> g[HEADER..] == m.payload
    ensures HEADER <= i ==> Substituted(m.payload, g[HEADER..], i - HEADER)
  {
    var d := Encode(m);
    HeadFields(m, m.payload);
    assert |d| == HEADER + |m.payload| && d[HEADER..] == m.payload;
    hide Head, Checksum, Encode;
    FieldsApart(d, g, i, 6);
    FieldsApart(d, g, i, 10);
    FieldsApart(d, g, i, 14);
    FieldsApart(d, g, i, 18);
    hide Field;
    assert d[4] == PROTO_VERSION && d[5] == m.kind;
    if i < 4 {
      assert g[..4][i] != d[..4][i];
    }
  }

  lemma ChecksumSees(p: bytes, q: bytes, i: nat)
    requires Substituted(p, q, i)
    ensures Checksum(p) != Checksum(q)
  {
    Constants();
    hide *;
    HashSeesSubstitution(FNV32, p, q, i);
    ChecksumIsHash(p);
    ChecksumIsHash(q);
  }

  /** One changed byte in the payload or in the checksum field is always noticed. */
  lemma SubstitutionRefused(m: Message, g: bytes, i: nat)
    requires Carried(m) && Substituted(Encode(m), g, i) && 18 <= i
    ensures Decode(g) == Bad(ChecksumMismatch)
  {
    hide Head, Encode, Decode, Field, Checksum, Substituted;
    SubstitutedFields(m, g, i);
    var p := g[HEADER..];
    assert |p| == |m.payload| && g[HEADER..HEADER + |p|] == p;
    if HEADER <= i {
      ChecksumSees(m.payload, p, i - HEADER);
    }
    Announced(g, p);
  }

  /** The header before the length is not covered by the checksum: a changed byte there is refused
      in the magic, the version and for an unknown type, and otherwise yields another message. */
  lemma HeaderSubstitution(m: Message, g: bytes, i: nat)
    requires Carried(m) && Substituted(Encode(m), g, i) && i < 14
    ensures Decode(g) ==
            if i < 4 then Bad(BadMagic)
            else if i == 4 then Bad(UnsupportedVersion)
            else if i == 5 && !(1 <= g[5] <= MAX_KIND) then Bad(InvalidType)
            else Got(Message(g[5], Field(g, 6), Field(g, 10), m.payload), |g|)
    ensures Decode(g).Got? ==> Decode(g).m != m
  {
    hide Head, Checksum, Encode, Decode, Field, Substituted;
    SubstitutedFields(m, g, i);
    if i > 4 {
      Announced(g, m.payload);
    } else {
      BadPreamble(g);
    }
  }

  /** A changed byte of the length announces another payload: what is read then is too long, waits for
      bytes that do not come, or fails the checksum, unless a part of the payload has the checksum of
      all of it. */
  lemma LengthSubstitution(m: Message, g: bytes, i: nat)
    requires Carried(m) && Substituted(Encode(m), g, i) && 14 <= i < 18
    ensures |g| >= HEADER && Field(g, 14) != |m.payload|
    ensures var n := Field(g, 14);
            Decode(g) ==
            if n > MAX_PAYLOAD then Bad(OversizedPayload)
            else if n > |m.payload| then NeedMore
            else if Checksum(m.payload[..n]) != Checksum(m.payload) then Bad(ChecksumMismatch)
            else Got(Message(m.kind, m.epoch, m.authority, m.payload[..n]), HEADER + n)
  {
    SubstitutedFields(m, g, i);
    hide *;
    SmallLength(m);
    LengthRead(m, g);
  }

  lemma SmallLength(m: Message)
    requires Carried(m)
    ensures |m.payload| % TWO32 == |m.payload| <= MAX_PAYLOAD && 1 <= m.kind <= MAX_KIND
  {
  }

  lemma LengthRead(m: Message, g: bytes)
    requires |g| == HEADER + |m.payload| && g[..4] == [0x45, 0x52, 0x46, 0x46] && g[4] == PROTO_VERSION
    requires g[5] == m.kind && 1 <= m.kind <= MAX_KIND && |m.payload| <= MAX_PAYLOAD
    requires Field(g, 6) == m.epoch && Field(g, 10) == m.authority && Field(g, 18) == Checksum(m.payload)
    requires g[HEADER..] == m.payload
    ensures var n := Field(g, 14);
            Decode(g) ==
            if n > MAX_PAYLOAD then Bad(OversizedPayload)
            else if n > |m.payload| then NeedMore
            else if Checksum(m.payload[..n]) != Checksum(m.payload) then Bad(ChecksumMismatch)
            else Got(Message(m.kind, m.epoch, m.authority, m.payload[..n]), HEADER + n)
  {
    var n := Field(g, 14);
    hide *;
    if n <= |m.payload| {
      PartAt(g, m.payload, n);
      Announced(g, m.payload[..n]);
    } else {
      AnnouncedTooMuch(g);
    }
  }

  lemma PartAt(d: bytes, p: bytes, n: nat)
    requires |d| >= HEADER && d[HEADER..] == p && n <= |p|
    ensures d[HEADER..HEADER + n] == p[..n]
  {
    assert d[HEADER..HEADER + n] == d[HEADER..][..n];
  }

  lemma AnnouncedTooMuch(d: bytes)
    requires |d| >= HEADER && d[..4] == [0x45, 0x52, 0x46, 0x46] && d[4] == PROTO_VERSION
    requires 1 <= d[5] <= MAX_KIND && HEADER + Field(d, 14) > |d|
    ensures Decode(d) == if Field(d, 14) > MAX_PAYLOAD then Bad(OversizedPayload) else NeedMore
  {
    hide Checksum, Field;
  }

  /** Exactly when a frame with one changed byte is accepted: the type is changed to another known one,
      the epoch or the authority is changed, or the length is cut to a part of the payload that has the
      same checksum. */
  lemma SubstitutionAccepted(m: Message, g: bytes, i: nat)
    requires Carried(m) && Substituted(Encode(m), g, i)
    ensures |g| == HEADER + |m.payload|
    ensures Decode(g).Got? <==>
              || (i == 5 && 1 <= g[5] <= MAX_KIND)
              || 6 <= i < 14
              || (14 <= i < 18 && Field(g, 14) <= |m.payload|
                  && Checksum(m.payload[..Field(g, 14)]) == Checksum(m.payload))
  {
    SubstitutedFields(m, g, i);
    hide Head, Checksum, Encode, Decode, Field, Substituted;
    if i < 14 {
      HeaderSubstitution(m, g, i);
    } else if i < 18 {
      LengthSubstitution(m, g, i);
    } else {
      SubstitutionRefused(m, g, i);
    }
  }

  lemma BadPreamble(d: bytes)
    requires |d| >= HEADER
    ensures d[..4] != [0x45, 0x52, 0x46, 0x46] ==> Decode(d) == Bad(BadMagic)
    ensures d[..4] == [0x45, 0x52, 0x46, 0x46] && d[4] != PROTO_VERSION ==> Decode(d) == Bad(UnsupportedVersion)
  {
    hide Checksum, Field;
  }

  /* ---- the receive buffer ---- */

  /** What one ::recv call can return: between 1 and 4096 bytes. */
  type Chunk = c: bytes | 0 < |c| <= 4096 witness [0]

  datatype Received = Received(m: Option<Message>, rest: bytes, pending: seq<Chunk>)

  /** recv_frame as a function of the buffer and of the chunks the peer is going to deliver;
      after the last chunk the connection is at its end. */
  function Recv(buf: bytes, pending: seq<Chunk>): Received
    decreases |pending|
  {
    match Decode(buf)
    case Got(m, used) =>
      UsedWithin(buf);
      Received(Some(m), buf[used..], pending)
    case Bad(_) => Received(None, buf, pending)
    case NeedMore =>
      if pending == [] then Received(None, buf, []) else Recv(buf + pending[0], pending[1..])
  }

  class TcpSocket {
    var open: bool
    var rxbuf: bytes
    var pending: seq<Chunk>  // what the network still has to deliver; not part of the source object

    constructor (incoming: seq<Chunk>)
      ensures open && rxbuf == [] && pending == incoming
    {
      open, rxbuf, pending := true, [], incoming;
    }

    method RecvFrame() returns (m: Option<Message>)
      modifies this`rxbuf, this`pending
      ensures !open ==> m == None && rxbuf == old(rxbuf) && pending == old(pending)
      ensures open ==> Received(m, rxbuf, pending) == Recv(old(rxbuf), old(pending))
    {
      if !open {
        return None;
      }
      while true
        invariant Recv(rxbuf, pending) == Recv(old(rxbuf), old(pending))
        decreases |pending|
      {
        var d := DecodeFrame(rxbuf);
        match d {
          case Got(got, used) =>
            UsedWithin(rxbuf);
            rxbuf := rxbuf[used..];
            return Some(got);
          case Bad(_) =>
            return None;
          case NeedMore =>
            if pending == [] {
              return None;
            }
            rxbuf, pending := rxbuf + pending[0], pending[1..];
        }
      }
    }
  }

  /** recv_frame up to n times, stopping at the first failure. */
  function RecvMany(buf: bytes, pending: seq<Chunk>, n: nat): (seq<Message>, bytes, seq<Chunk>)
    decreases n
  {
    if n == 0 then ([], buf, pending)
    else
      var r := Recv(buf, pending);
      match r.m
      case None => ([], r.rest, r.pending)
      case Some(m) =>
        var (ms, rest, chunks) := RecvMany(r.rest, r.pending, n - 1);
        ([m] + ms, rest, chunks)
  }

  /** The bytes not yet turned into messages. */
  function Stream(buf: bytes, pending: seq<Chunk>): bytes
  {
    buf + Flatten(pending)
  }

  lemma StreamShift(buf: bytes, pending: seq<Chunk>)
    requires pending != []
    ensures Stream(buf + pending[0], pending[1..]) == Stream(buf, pending)
  {
    assert buf + pending[0] + Flatten(pending[1..]) == buf + (pending[0] + Flatten(pending[1..]));
  }

  lemma ChunksNotEmpty(pending: seq<Chunk>)
    ensures pending != [] ==> Flatten(pending) != []
  {
    if pending != [] {
      assert Flatten(pending) == pending[0] + Flatten(pending[1..]);
    }
  }

  /** recv_frame does what one decode of the whole stream does, however the stream is cut up. */
  lemma {:induction false} RecvIsDecode(buf: bytes, pending: seq<Chunk>)
    ensures match Decode(Stream(buf, pending))
            case Got(m, used) =>
              && Recv(buf, pending).m == Some(m) && used <= |Stream(buf, pending)|
              && Stream(Recv(buf, pending).rest, Recv(buf, pending).pending) == Stream(buf, pending)[used..]
            case Bad(_) =>
              Recv(buf, pending).m == None
              && Stream(Recv(buf, pending).rest, Recv(buf, pending).pending) == Stream(buf, pending)
            case NeedMore => Recv(buf, pending) == Received(None, Stream(buf, pending), [])
    decreases |pending|
  {
    hide Decode;
    match Decode(buf) {
      case Got(m, used) =>
        UsedWithin(buf);
        DecisionStable(buf, Flatten(pending));
        assert buf[used..] + Flatten(pending) == (buf + Flatten(pending))[used..];
      case Bad(_) =>
        DecisionStable(buf, Flatten(pending));
      case NeedMore =>
        if pending == [] {
          assert Stream(buf, pending) == buf;
        } else {
          StreamShift(buf, pending);
          RecvIsDecode(buf + pending[0], pending[1..]);
        }
    }
  }

  /** Two ways of cutting the same bytes, well formed or not, give the same messages. */
  lemma {:induction false} ChunkingIrrelevant(buf: bytes, p: seq<Chunk>, buf': bytes, p': seq<Chunk>, n: nat)
    requires Stream(buf, p) == Stream(buf', p')
    ensures RecvMany(buf, p, n).0 == RecvMany(buf', p', n).0
    decreases n
  {
    RecvIsDecode(buf, p);
    RecvIsDecode(buf', p');
    hide Decode, Recv, Stream;
    if n > 0 && Recv(buf, p).m.Some? {
      ChunkingIrrelevant(Recv(buf, p).rest, Recv(buf, p).pending, Recv(buf', p').rest, Recv(buf', p').pending, n - 1);
    }
  }

  function EncodeAll(ms: seq<Message>): bytes
  {
    if ms == [] then [] else Encode(ms[0]) + EncodeAll(ms[1..])
  }

  /** Any messages, sent back to back and delivered in any pieces, arrive as sent and leave nothing. */
  lemma {:induction false} StreamDelivers(buf: bytes, pending: seq<Chunk>, ms: seq<Message>)
    requires Stream(buf, pending) == EncodeAll(ms) && forall m :: m in ms ==> Carried(m)
    ensures RecvMany(buf, pending, |ms|) == (ms, [], [])
    decreases |ms|
  {
    if ms == [] {
      ChunksNotEmpty(pending);
    } else {
      var e := Encode(ms[0]);
      RoundTrip(ms[0], EncodeAll(ms[1..]));
      RecvIsDecode(buf, pending);
      assert Stream(buf, pending)[|e|..] == EncodeAll(ms[1..]);
      var r := Recv(buf, pending);
      hide Decode, Encode, Recv, Carried;
      StreamDelivers(r.rest, r.pending, ms[1..]);
      assert [ms[0]] + ms[1..] == ms;
    }
  }
}
