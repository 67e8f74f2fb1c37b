/** The wire frame: layout, the in-place encoder, the parser, and what the two promise each other. */
module Frame {
  import opened Bits
  import opened Words
  import opened Crc32c

  const MAGIC: nat := 0x4845_4C31
  const VERSION: nat := 1
  const HEADER_SIZE: nat := 32
  const CRC_SIZE: nat := 4
  const PAYLOAD_ALIGNMENT: nat := 8
  const LENGTH_AT: nat := 12
  const MAX_PAYLOAD: nat := 0xFFFF_FFFF

  datatype FrameHeader = FrameHeader(
    magic: nat, version: nat, kind: nat, flags: nat, reserved: nat, payloadLength: nat,
    actorId: nat, messageId: nat)
  {
    predicate Fits() {
      && magic < 0x1_0000_0000 && version < 0x1_0000 && kind < 0x1_0000 && flags < 0x1_0000
      && reserved < 0x1_0000 && payloadLength < 0x1_0000_0000 && actorId < WORD && messageId < WORD
    }
  }

  datatype ParsedFrame = ParsedFrame(
    header: FrameHeader, payload: seq<byte>, valid: bool, expectedCrc: nat, actualCrc: nat)

  const REJECTED := ParsedFrame(FrameHeader(0, 0, 0, 0, 0, 0, 0, 0), [], false, 0, 0)

  // ---------------------------------------------------------------- the header

  lemma {:induction false} FieldWidths()
    ensures Pow2(8 * 2) == 0x1_0000 && Pow2(8 * 4) == 0x1_0000_0000 && Pow2(8 * 8) == WORD
  {
    WordIs32Bits();
    Pow2Sum(32, 32);
  }

  // ---------------------------------------------------------------- layout

  function HeaderBytes(h: FrameHeader): (s: seq<byte>)
    ensures |s| == HEADER_SIZE
  {
    Le(h.magic, 4) + Le(h.version, 2) + Le(h.kind, 2) + Le(h.flags, 2) + Le(h.reserved, 2)
    + Le(h.payloadLength, 4) + Le(h.actorId, 8) + Le(h.messageId, 8)
  }

  function ReadHeader(s: seq<byte>): (h: FrameHeader)
    requires |s| >= HEADER_SIZE
    ensures h.Fits()
  {
    FieldWidths();
    FrameHeader(FromLe(s[0..4]), FromLe(s[4..6]), FromLe(s[6..8]), FromLe(s[8..10]), FromLe(s[10..12]),
                FromLe(s[12..16]), FromLe(s[16..24]), FromLe(s[24..32]))
  }

  lemma {:induction false} HeaderRoundTrip(h: FrameHeader, rest: seq<byte>)
    requires h.Fits()
    ensures ReadHeader(HeaderBytes(h) + rest) == h
  {
    FieldWidths();
    FromLeLe(h.magic, 4);
    FromLeLe(h.version, 2);
    FromLeLe(h.kind, 2);
    FromLeLe(h.flags, 2);
    FromLeLe(h.reserved, 2);
    FromLeLe(h.payloadLength, 4);
    FromLeLe(h.actorId, 8);
    FromLeLe(h.messageId, 8);
    SplitFields(Le(h.magic, 4), Le(h.version, 2), Le(h.kind, 2), Le(h.flags, 2), Le(h.reserved, 2),
                Le(h.payloadLength, 4), Le(h.actorId, 8), Le(h.messageId, 8), rest);
  }

  lemma {:induction false} SplitFields(a: seq<byte>, b: seq<byte>, c: seq<byte>, d: seq<byte>, e: seq<byte>,
                                       f: seq<byte>, g: seq<byte>, h: seq<byte>, rest: seq<byte>)
    requires |a| == 4 && |b| == |c| == |d| == |e| == 2 && |f| == 4 && |g| == |h| == 8
    ensures var s := a + b + c + d + e + f + g + h + rest;
      && s[0..4] == a && s[4..6] == b && s[6..8] == c && s[8..10] == d && s[10..12] == e
      && s[12..16] == f && s[16..24] == g && s[24..32] == h
  {
  }

  /** Where each field of the header is, and how wide. */
  lemma {:induction false} HeaderOffsets(h: FrameHeader)
    ensures var s := HeaderBytes(h);
      && s[0..4] == Le(h.magic, 4) && s[4..6] == Le(h.version, 2) && s[6..8] == Le(h.kind, 2)
      && s[8..10] == Le(h.flags, 2) && s[10..12] == Le(h.reserved, 2)
      && s[LENGTH_AT..LENGTH_AT + 4] == Le(h.payloadLength, 4)
      && s[16..24] == Le(h.actorId, 8) && s[24..32] == Le(h.messageId, 8)
  {
    hide Le;
    SplitFields(Le(h.magic, 4), Le(h.version, 2), Le(h.kind, 2), Le(h.flags, 2), Le(h.reserved, 2),
                Le(h.payloadLength, 4), Le(h.actorId, 8), Le(h.messageId, 8), []);
    assert HeaderBytes(h) + [] == HeaderBytes(h);
  }

  lemma {:induction false} HeaderBytesOfRead(s: seq<byte>)
    requires |s| >= HEADER_SIZE
    ensures HeaderBytes(ReadHeader(s)) == s[..HEADER_SIZE]
  {
    LeFromLe(s[0..4]);
    LeFromLe(s[4..6]);
    LeFromLe(s[6..8]);
    LeFromLe(s[8..10]);
    LeFromLe(s[10..12]);
    LeFromLe(s[12..16]);
    LeFromLe(s[16..24]);
    LeFromLe(s[24..32]);
    hide Le;
    hide FromLe;
    assert s[..32] == s[0..4] + s[4..6] + s[6..8] + s[8..10] + s[10..12] + s[12..16] + s[16..24] + s[24..32];
  }

  function EncodedFrameSize(n: nat): nat
    requires n + PAYLOAD_ALIGNMENT - 1 < WORD
  {
    assert PowerOfTwo(PAYLOAD_ALIGNMENT);
    HEADER_SIZE + AlignUp(n, PAYLOAD_ALIGNMENT) + CRC_SIZE
  }

  datatype FrameLayout = FrameLayout(payloadSize: nat, paddedPayloadSize: nat, crcOffset: nat, totalSize: nat)

  function LayoutForPayload(n: nat): (l: FrameLayout)
    requires n + PAYLOAD_ALIGNMENT - 1 < WORD
    ensures l.payloadSize == n <= l.paddedPayloadSize < n + 8 && l.paddedPayloadSize % 8 == 0
    ensures l.crcOffset == HEADER_SIZE + l.paddedPayloadSize
    ensures HEADER_SIZE + CRC_SIZE <= l.totalSize == l.crcOffset + CRC_SIZE
  {
    assert PowerOfTwo(PAYLOAD_ALIGNMENT);
    var padded := AlignUp(n, PAYLOAD_ALIGNMENT);
    FrameLayout(n, padded, HEADER_SIZE + padded, HEADER_SIZE + padded + CRC_SIZE)
  }

  lemma LayoutSize(n: nat)
    requires n + PAYLOAD_ALIGNMENT - 1 < WORD
    ensures LayoutForPayload(n).totalSize == EncodedFrameSize(n)
    ensures 36 + n <= EncodedFrameSize(n) < 36 + n + 8 && EncodedFrameSize(n) % 8 == 4
  {
  }

  function ZeroBytes(n: nat): (s: seq<byte>)
    ensures |s| == n && forall i :: 0 <= i < n ==> s[i] == 0
  {
    seq(n, _ => 0)
  }

  function Checksum(data: seq<byte>): (x: nat)
    ensures x < 0x1_0000_0000
  {
    WordIs32Bits();
    FromBits(Crc(data))
  }

  /** The bytes of a frame: header, payload, zero padding, checksum of the first two. */
  function FrameBytes(h: FrameHeader, payload: seq<byte>): (s: seq<byte>)
    requires |payload| <= MAX_PAYLOAD
    ensures |s| == LayoutForPayload(|payload|).totalSize
  {
    var l := LayoutForPayload(|payload|);
    HeaderBytes(h) + payload + ZeroBytes(l.paddedPayloadSize - |payload|)
    + Le(Checksum(HeaderBytes(h) + payload), 4)
  }

  // ---------------------------------------------------------------- encode

  function Overwrite(before: seq<byte>, at: nat, s: seq<byte>): (after: seq<byte>)
    requires at + |s| <= |before|
    ensures |after| == |before|
  {
    before[..at] + s + before[at + |s|..]
  }

  method CopyInto(buffer: array<byte>, at: nat, s: seq<byte>)
    requires at + |s| <= buffer.Length
    modifies buffer
    ensures buffer[..] == Overwrite(old(buffer[..]), at, s)
  {
    var i := 0;
    while i < |s|
      invariant 0 <= i <= |s|
      invariant forall k :: 0 <= k < buffer.Length && !(at <= k < at + i) ==> buffer[k] == old(buffer[k])
      invariant forall k :: 0 <= k < i ==> buffer[at + k] == s[k]
    {
      buffer[at + i] := s[i];
      i := i + 1;
    }
  }

  method EncodeFrame(buffer: array<byte>, kind: nat, flags: nat, actorId: nat, messageId: nat,
                     payload: seq<byte>) returns (n: nat)
    requires kind < 0x1_0000 && flags < 0x1_0000 && actorId < WORD && messageId < WORD
    modifies buffer
    ensures n == if |payload| <= MAX_PAYLOAD && EncodedFrameSize(|payload|) <= buffer.Length
                 then EncodedFrameSize(|payload|) else 0
    ensures n == 0 ==> buffer[..] == old(buffer[..])
    ensures n > 0 ==>
      var header := FrameHeader(MAGIC, VERSION, kind, flags, 0, |payload|, actorId, messageId);
      n <= buffer.Length && buffer[..] == FrameBytes(header, payload) + old(buffer[..])[n..]
  {
    hide HeaderBytes, FrameBytes, EncodedFrameSize, ZeroBytes, Le, FromBits, Checksum, Crc, Overwrite;
    if |payload| > MAX_PAYLOAD {
      return 0;
    }
    LayoutSize(|payload|);
    var layout := LayoutForPayload(|payload|);
    if layout.totalSize > buffer.Length || layout.totalSize < HEADER_SIZE + CRC_SIZE {
      return 0;
    }
    var header := FrameHeader(MAGIC, VERSION, kind, flags, 0, |payload|, actorId, messageId);
    var headerBytes := HeaderBytes(header);
    ghost var before := buffer[..];
    var end, padding := HEADER_SIZE + |payload|, layout.paddedPayloadSize - |payload|;
    ghost var checksum := Le(FromBits(Crc(headerBytes + payload)), CRC_SIZE);
    FrameParts(header, payload);
    FourWrites(before, headerBytes, payload, ZeroBytes(padding), checksum);
    assert HEADER_SIZE == 32 && CRC_SIZE == 4;
    hide *;
    CopyInto(buffer, 0, headerBytes);
    if |payload| > 0 {
      CopyInto(buffer, HEADER_SIZE, payload);
    }
    if padding > 0 {
      CopyInto(buffer, end, ZeroBytes(padding));
    }
    var crc := Hardware(buffer[..end]);
    CopyInto(buffer, layout.crcOffset, Le(FromBits(crc), CRC_SIZE));
    n := layout.totalSize;
  }

  /** Header, payload, padding and checksum written one after the other; an empty write may be skipped. */
  lemma {:induction false} FourWrites(b: seq<byte>, h: seq<byte>, p: seq<byte>, z: seq<byte>, c: seq<byte>)
    requires |h| + |p| + |z| + |c| <= |b|
    ensures var b1 := Overwrite(b, 0, h);
      var b2 := Overwrite(b1, |h|, p);
      var b3 := Overwrite(b2, |h| + |p|, z);
      && (p == [] ==> b2 == b1)
      && (z == [] ==> b3 == b2)
      && b3[..|h| + |p|] == h + p
      && Overwrite(b3, |h| + |p| + |z|, c) == h + p + z + c + b[|h| + |p| + |z| + |c|..]
  {
    var b1 := Overwrite(b, 0, h);
    var b2 := Overwrite(b1, |h|, p);
    assert b1 == h + b[|h|..];
    assert b2 == h + p + b[|h| + |p|..];
    var b3 := Overwrite(b2, |h| + |p|, z);
    assert b3 == h + p + z + b[|h| + |p| + |z|..];
  }

  lemma FrameParts(h: FrameHeader, payload: seq<byte>)
    requires |payload| <= MAX_PAYLOAD
    ensures FrameBytes(h, payload) == HeaderBytes(h) + payload
              + ZeroBytes(LayoutForPayload(|payload|).paddedPayloadSize - |payload|)
              + Le(Checksum(HeaderBytes(h) + payload), CRC_SIZE)
    ensures Checksum(HeaderBytes(h) + payload) == FromBits(Crc(HeaderBytes(h) + payload))
  {
  }

  // ---------------------------------------------------------------- parse

  function Parse(buffer: seq<byte>): ParsedFrame {
    if |buffer| < HEADER_SIZE + CRC_SIZE then REJECTED
    else
      var h := ReadHeader(buffer);
      if h.magic != MAGIC || h.version != VERSION then REJECTED
      else
        var l := LayoutForPayload(h.payloadLength);
        if l.totalSize > |buffer| then REJECTED
        else
          var end := HEADER_SIZE + h.payloadLength;
          var computed := Checksum(buffer[..end]);
          var wire := FromLe(buffer[l.crcOffset..l.totalSize]);
          ParsedFrame(h, buffer[HEADER_SIZE..end], computed == wire, computed, wire)
  }

  method ParseFrame(buffer: seq<byte>) returns (parsed: ParsedFrame)
    ensures parsed == Parse(buffer)
  {
    hide ReadHeader;
    parsed := REJECTED;
    if |buffer| < HEADER_SIZE + CRC_SIZE {
      return;
    }
    var header := ReadHeader(buffer);
    if header.magic != MAGIC || header.version != VERSION {
      return;
    }
    var layout := LayoutForPayload(header.payloadLength);
    if layout.totalSize < HEADER_SIZE + CRC_SIZE || layout.totalSize > |buffer| {
      return;
    }
    var wire := FromLe(buffer[layout.crcOffset..layout.crcOffset + CRC_SIZE]);
    var crc := Hardware(buffer[..HEADER_SIZE + header.payloadLength]);
    var computed := FromBits(crc);
    var payload := buffer[HEADER_SIZE..HEADER_SIZE + header.payloadLength];
    parsed := ParsedFrame(header, payload, computed == wire, computed, wire);
  }

  // ---------------------------------------------------------------- encode and parse undo each other

  lemma ParseByParts(s: seq<byte>, h: FrameHeader, payload: seq<byte>)
    requires |payload| <= MAX_PAYLOAD
    ensures var l := LayoutForPayload(|payload|);
      && l.totalSize <= |s|
      && h.magic == MAGIC && h.version == VERSION && h.payloadLength == |payload|
      && ReadHeader(s) == h && s[HEADER_SIZE..HEADER_SIZE + |payload|] == payload
      ==> var crc, wire := Checksum(s[..HEADER_SIZE + |payload|]), FromLe(s[l.crcOffset..l.totalSize]);
          Parse(s) == ParsedFrame(h, payload, crc == wire, crc, wire)
  {
    hide ReadHeader;
  }

  /**
   * Header, payload, any padding and any four bytes in the place of the checksum: the fields and the payload come back,
   * with the checksum computed and the one found, and the frame is valid exactly when these are equal.
   */
  lemma {:induction false} ParseOfParts(h: FrameHeader, payload: seq<byte>, padding: seq<byte>, wire: seq<byte>,
                                        rest: seq<byte>)
    requires h.Fits() && h.magic == MAGIC && h.version == VERSION && h.payloadLength == |payload| <= MAX_PAYLOAD
    requires |padding| == LayoutForPayload(|payload|).paddedPayloadSize - |payload| && |wire| == CRC_SIZE
    ensures var computed := Checksum(HeaderBytes(h) + payload);
      var p := Parse(HeaderBytes(h) + payload + padding + wire + rest);
      && p.header == h && p.payload == payload
      && p.expectedCrc == computed && p.actualCrc == FromLe(wire) && (p.valid <==> FromLe(wire) == computed)
  {
    hide Parse, Checksum, ReadHeader, HeaderBytes, Le, FromLe;
    HeaderRoundTrip(h, payload + padding + wire + rest);
    Slices(HeaderBytes(h), payload, padding, wire, rest);
    ParseByParts(HeaderBytes(h) + payload + padding + wire + rest, h, payload);
  }

  /** What is refused outright: a short buffer, a foreign magic or version, a frame longer than the buffer. */
  lemma {:induction false} ParseRejects(s: seq<byte>)
    ensures Parse(s) == REJECTED <==>
              || |s| < 36
              || FromLe(s[0..4]) != 0x4845_4C31 || FromLe(s[4..6]) != 1
              || EncodedFrameSize(ReadHeader(s).payloadLength) > |s|
  {
    hide FromLe, Checksum;
    if |s| >= HEADER_SIZE + CRC_SIZE {
      LayoutSize(ReadHeader(s).payloadLength);
    }
  }

  lemma {:induction false} ParseOfFrame(h: FrameHeader, payload: seq<byte>, rest: seq<byte>)
    requires h.Fits() && h.magic == MAGIC && h.version == VERSION && h.payloadLength == |payload| <= MAX_PAYLOAD
    ensures var crc := Checksum(HeaderBytes(h) + payload);
      Parse(FrameBytes(h, payload) + rest) == ParsedFrame(h, payload, true, crc, crc)
  {
    hide Parse, Checksum, ReadHeader, HeaderBytes, Le, FromLe, ZeroBytes;
    var crc := Checksum(HeaderBytes(h) + payload);
    FrameParts(h, payload);
    FieldWidths();
    FromLeLe(crc, CRC_SIZE);
    var z := ZeroBytes(LayoutForPayload(|payload|).paddedPayloadSize - |payload|);
    ParseOfParts(h, payload, z, Le(crc, CRC_SIZE), rest);
  }

  lemma {:induction false} Slices(a: seq<byte>, b: seq<byte>, c: seq<byte>, d: seq<byte>, rest: seq<byte>)
    ensures var s := a + b + c + d + rest;
      && s == a + (b + c + d + rest) && s[..|a| + |b|] == a + b && s[|a|..|a| + |b|] == b
      && s[|a| + |b| + |c|..|a| + |b| + |c| + |d|] == d
  {
  }

  /** A parsed frame re-encodes to the bytes it came from exactly when reserved and padding were zero. */
  lemma {:induction false} FrameOfParse(s: seq<byte>)
    requires Parse(s).valid
    ensures var p := Parse(s);
      var l := LayoutForPayload(|p.payload|);
      && l.totalSize <= |s|
      && (FrameBytes(p.header.(reserved := 0), p.payload) == s[..l.totalSize]
          <==> p.header.reserved == 0
                 && s[HEADER_SIZE + |p.payload|..l.crcOffset] == ZeroBytes(l.paddedPayloadSize - |p.payload|))
  {
    hide ReadHeader, HeaderBytes, Le, FromLe, Checksum, ZeroBytes;
    ValidFrame(s);
    var p := Parse(s);
    var l := LayoutForPayload(|p.payload|);
    var end := HEADER_SIZE + |p.payload|;
    var h := p.header.(reserved := 0);
    HeaderBytesInjective(h, p.header);
    FrameParts(h, p.payload);
    LeFromLe(s[l.crcOffset..l.totalSize]);
    assert HEADER_SIZE == 32 && CRC_SIZE == 4;
    hide *;
    FourParts(HeaderBytes(h), p.payload, ZeroBytes(l.paddedPayloadSize - |p.payload|),
              Le(Checksum(HeaderBytes(h) + p.payload), CRC_SIZE),
              s[..HEADER_SIZE], p.payload, s[end..l.crcOffset], s[l.crcOffset..l.totalSize]);
    assert s[..l.totalSize] == s[..HEADER_SIZE] + p.payload + s[end..l.crcOffset] + s[l.crcOffset..l.totalSize];
  }

  lemma {:induction false} ValidFrame(s: seq<byte>)
    requires Parse(s).valid
    ensures var p := Parse(s);
      && p.header.Fits() && p.header.payloadLength == |p.payload| <= MAX_PAYLOAD
      && LayoutForPayload(|p.payload|).totalSize <= |s|
      && s[..HEADER_SIZE] == HeaderBytes(p.header)
      && s[HEADER_SIZE..HEADER_SIZE + |p.payload|] == p.payload
      && var l := LayoutForPayload(|p.payload|);
         Checksum(HeaderBytes(p.header) + p.payload) == FromLe(s[l.crcOffset..l.totalSize])
  {
    HeaderBytesOfRead(s);
    var p := Parse(s);
    assert s[..HEADER_SIZE + |p.payload|] == s[..HEADER_SIZE] + p.payload;
  }

  lemma {:induction false} HeaderBytesInjective(h: FrameHeader, h': FrameHeader)
    requires h.Fits() && h'.Fits()
    ensures HeaderBytes(h) == HeaderBytes(h') <==> h == h'
  {
    HeaderRoundTrip(h, []);
    HeaderRoundTrip(h', []);
  }

  lemma {:induction false} FourParts(a: seq<byte>, b: seq<byte>, c: seq<byte>, d: seq<byte>,
                                     a': seq<byte>, b': seq<byte>, c': seq<byte>, d': seq<byte>)
    requires |a| == |a'| && |b| == |b'| && |c| == |c'| && |d| == |d'|
    ensures a + b + c + d == a' + b' + c' + d' <==> a == a' && b == b' && c == c' && d == d'
  {
    var s, s' := a + b + c + d, a' + b' + c' + d';
    var i, j, k := |a|, |a| + |b|, |a| + |b| + |c|;
    assert s[..i] == a && s[i..j] == b && s[j..k] == c && s[k..] == d;
    assert s'[..i] == a' && s'[i..j] == b' && s'[j..k] == c' && s'[k..] == d';
  }

  // ---------------------------------------------------------------- corruption is detected

  /** The protected bytes: header and payload, then the checksum; the padding between them is not covered. */
  function Codeword(s: seq<byte>, n: nat): (c: seq<byte>)
    requires n <= MAX_PAYLOAD && LayoutForPayload(n).totalSize <= |s|
    ensures |c| == HEADER_SIZE + n + CRC_SIZE
  {
    var l := LayoutForPayload(n);
    s[..HEADER_SIZE + n] + s[l.crcOffset..l.totalSize]
  }

  // The register after any intact message and its checksum.
  const RESIDUE: Word32 := BitSteps(INITIAL, 32)

  /** Feeding the checksum after the message leaves the residue exactly when the checksum is right. */
  lemma {:induction false} ResidueIffMatch(data: seq<byte>, wire: seq<byte>)
    requires |wire| == 4
    ensures FeedBits(INITIAL, MessageBits(data + wire)) == RESIDUE <==> Checksum(data) == FromLe(wire)
  {
    var c := FeedBits(INITIAL, MessageBits(data));
    var w: Word32 := MessageBits(wire);
    MessageBitsAppend(data, wire);
    FeedBitsAppend(INITIAL, MessageBits(data), w);
    FeedBitsIsXor(c, w);
    assert Widen(w) == w;
    FromBitsOfMessage(wire);
    hide BitSteps;
    if BitSteps(Xor(c, w), 32) == BitSteps(INITIAL, 32) {
      StepsInjective(Xor(c, w), INITIAL, 32);
      forall i | 0 <= i < 32
        ensures Not(c)[i] == w[i]
      {
        assert Xor(c, w)[i] == INITIAL[i];
      }
      assert Not(c) == w;
    }
    if FromBits(Not(c)) == FromBits(w) {
      ToFromBits(Not(c));
      ToFromBits(w);
      assert Xor(c, w) == INITIAL;
    }
  }

  lemma {:induction false} ValidIffResidue(s: seq<byte>)
    requires Parse(s) != REJECTED
    ensures LayoutForPayload(Parse(s).header.payloadLength).totalSize <= |s|
    ensures Parse(s).valid
       <==> FeedBits(INITIAL, MessageBits(Codeword(s, Parse(s).header.payloadLength))) == RESIDUE
  {
    var n := Parse(s).header.payloadLength;
    Accepted(s);
    var l := LayoutForPayload(n);
    assert Codeword(s, n) == s[..HEADER_SIZE + n] + s[l.crcOffset..l.totalSize];
    assert CRC_SIZE == 4;
    hide *;
    ResidueIffMatch(s[..HEADER_SIZE + n], s[l.crcOffset..l.totalSize]);
  }

  lemma {:induction false} Accepted(s: seq<byte>)
    requires Parse(s) != REJECTED
    ensures var n := Parse(s).header.payloadLength;
      var l := LayoutForPayload(n);
      && n <= MAX_PAYLOAD && l.totalSize <= |s|
      && (Parse(s).valid <==> Checksum(s[..HEADER_SIZE + n]) == FromLe(s[l.crcOffset..l.totalSize]))
  {
    hide ReadHeader;
  }

  ghost predicate SameOutside<T>(a: seq<T>, b: seq<T>, from: nat, width: nat) {
    |a| == |b| && forall k :: 0 <= k < |a| && !(from <= k < from + width) ==> a[k] == b[k]
  }

  lemma {:induction false} MessageBitsSameOutside(a: seq<byte>, b: seq<byte>, from: nat)
    requires SameOutside(a, b, from, 4)
    ensures SameOutside(MessageBits(a), MessageBits(b), 8 * from, 32)
  {
    var x, y := MessageBits(a), MessageBits(b);
    forall i | 0 <= i < |x| && !(8 * from <= i < 8 * from + 32)
      ensures x[i] == y[i]
    {
      var k := i / 8;
      MessageBitsAt(a, k);
      MessageBitsAt(b, k);
      assert x[i] == x[8 * k..8 * k + 8][i - 8 * k] && y[i] == y[8 * k..8 * k + 8][i - 8 * k];
    }
  }

  /**
   * Damage confined to four consecutive bytes, outside the length field, is accepted only when it misses
   * header, payload and checksum altogether, that is, when it lies in the padding or after the frame.
   */
  lemma {:induction false} WindowCorruptionDetected(f: seq<byte>, g: seq<byte>, from: nat)
    requires Parse(f).valid
    requires SameOutside(f, g, from, 4)
    requires f[LENGTH_AT..LENGTH_AT + 4] == g[LENGTH_AT..LENGTH_AT + 4]
    ensures LayoutForPayload(Parse(f).header.payloadLength).totalSize <= |f|
    ensures var n := Parse(f).header.payloadLength;
      Parse(g).valid <==> Codeword(f, n) == Codeword(g, n)
  {
    var n := Parse(f).header.payloadLength;
    var l := LayoutForPayload(n);
    var a, b := Codeword(f, n), Codeword(g, n);
    ValidIffResidue(f);
    assert ReadHeader(g).payloadLength == n;
    hide BitSteps, ReadHeader;
    if a == b {
      assert f[..HEADER_SIZE] == a[..HEADER_SIZE] == b[..HEADER_SIZE] == g[..HEADER_SIZE];
      ReadHeaderPrefix(f, g);
      assert Parse(g) != REJECTED;
      ValidIffResidue(g);
    } else if Parse(g).valid {
      ValidIffResidue(g);
      CodewordBurst(f, g, n, from);
    }
  }

  lemma {:induction false} CodewordBurst(f: seq<byte>, g: seq<byte>, n: nat, from: nat)
    requires n <= MAX_PAYLOAD && LayoutForPayload(n).totalSize <= |f|
    requires SameOutside(f, g, from, 4) && Codeword(f, n) != Codeword(g, n)
    ensures FeedBits(INITIAL, MessageBits(Codeword(f, n))) != FeedBits(INITIAL, MessageBits(Codeword(g, n)))
  {
    var a, b := Codeword(f, n), Codeword(g, n);
    var start := CodewordWindow(f, g, n, from);
    hide LayoutForPayload, Codeword, BitSteps;
    MessageBitsSameOutside(a, b, start);
    if MessageBits(a) == MessageBits(b) {
      MessageBitsInjective(a, b);
    }
    BitBurstDetected(INITIAL, MessageBits(a), MessageBits(b), 8 * start);
  }

  /** Leaving the padding out cannot widen a window. */
  lemma {:induction false} CodewordWindow(f: seq<byte>, g: seq<byte>, n: nat, from: nat) returns (start: nat)
    requires n <= MAX_PAYLOAD && LayoutForPayload(n).totalSize <= |f|
    requires SameOutside(f, g, from, 4)
    ensures SameOutside(Codeword(f, n), Codeword(g, n), start, 4)
  {
    var l := LayoutForPayload(n);
    start := if from < HEADER_SIZE + n then from
             else if from < l.crcOffset then HEADER_SIZE + n
             else from - (l.paddedPayloadSize - n);
  }

  lemma {:induction false} ReadHeaderPrefix(f: seq<byte>, g: seq<byte>)
    requires |f| >= HEADER_SIZE && |g| >= HEADER_SIZE && f[..HEADER_SIZE] == g[..HEADER_SIZE]
    ensures ReadHeader(f) == ReadHeader(g)
  {
    hide ReadHeader, HeaderBytes;
    HeaderBytesOfRead(f);
    HeaderBytesOfRead(g);
    HeaderBytesInjective(ReadHeader(f), ReadHeader(g));
  }

  /** An odd number of flipped bits in header, payload and checksum together is always detected. */
  lemma {:induction false} OddCorruptionDetected(f: seq<byte>, g: seq<byte>)
    requires Parse(f).valid && |f| == |g|
    requires f[LENGTH_AT..LENGTH_AT + 4] == g[LENGTH_AT..LENGTH_AT + 4]
    ensures LayoutForPayload(Parse(f).header.payloadLength).totalSize <= |f|
    ensures var n := Parse(f).header.payloadLength;
      Parity(MessageBits(Codeword(f, n))) != Parity(MessageBits(Codeword(g, n))) ==> !Parse(g).valid
  {
    var n := Parse(f).header.payloadLength;
    ValidIffResidue(f);
    assert ReadHeader(g).payloadLength == n;
    hide BitSteps, ReadHeader;
    if Parse(g).valid {
      ValidIffResidue(g);
      FeedBitsParity(INITIAL, MessageBits(Codeword(f, n)));
      FeedBitsParity(INITIAL, MessageBits(Codeword(g, n)));
    }
  }
}
