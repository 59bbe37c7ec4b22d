/** The per-call RTP handler of the Node gateway (node/src/rtp/rtpHandler.ts): packets out with a
    12-byte header, audio and DTMF digits in. Sockets and SRTP are not modelled; a packet is what is
    handed to encryption, or what decryption returns. */
module RtpCodec {

  import opened Collections

  type Byte = n: int | 0 <= n < 0x100
  type Bytes = seq<Byte>
  type Word = n: int | 0 <= n < 0x1_0000_0000

  const HEADER_LENGTH := 12
  const SAMPLES_PER_PACKET := 160
  const TWO_16 := 0x1_0000
  const TWO_32 := 0x1_0000_0000

  function Write16(v: nat): (b: Bytes)
    requires v < TWO_16
    ensures |b| == 2
  {
    [v / 0x100, v % 0x100]
  }

  function Write32(v: nat): (b: Bytes)
    requires v < TWO_32
    ensures |b| == 4
  {
    Write16(v / TWO_16) + Write16(v % TWO_16)
  }

  function Read16(b: Bytes, at: nat): (v: nat)
    requires at + 2 <= |b|
    ensures v < TWO_16
  {
    var high: int, low: int := b[at], b[at + 1];
    high * 0x100 + low
  }

  function Read32(b: Bytes, at: nat): (v: nat)
    requires at + 4 <= |b|
    ensures v < TWO_32
  {
    Read16(b, at) * TWO_16 + Read16(b, at + 2)
  }

  lemma ReadBack16(pre: Bytes, v: nat, post: Bytes)
    requires v < TWO_16
    ensures Read16(pre + Write16(v) + post, |pre|) == v
  {
  }

  lemma ReadBack32(pre: Bytes, v: nat, post: Bytes)
    requires v < TWO_32
    ensures Read32(pre + Write32(v) + post, |pre|) == v
  {
    var b := pre + Write32(v) + post;
    assert b == pre + Write16(v / TWO_16) + (Write16(v % TWO_16) + post);
    ReadBack16(pre, v / TWO_16, Write16(v % TWO_16) + post);
    assert b == (pre + Write16(v / TWO_16)) + Write16(v % TWO_16) + post;
    ReadBack16(pre + Write16(v / TWO_16), v % TWO_16, post);
  }

  // ---------------------------------------------------------------------------------------------
  // RTP packets, section 5.1 of RFC 3550

  /** A header extension: its profile word and its content, in 32-bit words. */
  datatype Extension = Extension(profile: nat, words: seq<Word>)

  datatype Packet = Packet(
    padding: bool,
    csrcs: seq<Word>,
    extension: Option<Extension>,
    marker: bool,
    payloadType: nat,
    seqNo: nat,
    timestamp: Word,
    ssrc: Word,
    payload: Bytes)

  predicate WellFormed(p: Packet) {
    && |p.csrcs| < 16 && p.payloadType < 128 && p.seqNo < TWO_16
    && (p.extension.Some? ==> p.extension.value.profile < TWO_16 && |p.extension.value.words| < TWO_16)
  }

  function Words(ws: seq<Word>): (b: Bytes)
    ensures |b| == 4 * |ws|
  {
    if ws == [] then [] else Write32(ws[0]) + Words(ws[1..])
  }

  /** The fixed header: version 2, the flags, the counts and the four numbers. */
  function FixedHeader(p: Packet): (b: Bytes)
    requires WellFormed(p)
    ensures |b| == HEADER_LENGTH
  {
    [128 + (if p.padding then 32 else 0) + (if p.extension.Some? then 16 else 0) + |p.csrcs|,
     (if p.marker then 128 else 0) + p.payloadType]
    + Write16(p.seqNo) + Write32(p.timestamp) + Write32(p.ssrc)
  }

  function ExtensionHeader(e: Option<Extension>): Bytes
    requires e.Some? ==> e.value.profile < TWO_16 && |e.value.words| < TWO_16
  {
    if e.None? then [] else Write16(e.value.profile) + Write16(|e.value.words|) + Words(e.value.words)
  }

  /** What follows the fixed header. */
  function Behind(p: Packet): Bytes
    requires WellFormed(p)
  {
    Words(p.csrcs) + (ExtensionHeader(p.extension) + p.payload)
  }

  /** The standard's layout. Padding octets, if any, are the end of `payload`. */
  function Encode(p: Packet): Bytes
    requires WellFormed(p)
  {
    FixedHeader(p) + Behind(p)
  }

  /** What onMessage takes from a datagram. */
  datatype Media = Media(payloadType: nat, timestamp: Word, payload: Bytes)

  /** The header walk of onMessage: None where it returns early for a short datagram. */
  function HeaderLength(b: Bytes): (n: Option<nat>)
    ensures n.Some? ==> HEADER_LENGTH <= n.value <= |b|
  {
    if |b| < HEADER_LENGTH then None
    else
      var fixed := HEADER_LENGTH + b[0] % 16 * 4;
      if b[0] / 16 % 2 == 0 then (if |b| < fixed then None else Some(fixed))
      else if |b| < fixed + 4 then None
      else
        var n := fixed + 4 + Read16(b, fixed + 2) * 4;
        if |b| < n then None else Some(n)
  }

  function ParseMedia(b: Bytes): Option<Media> {
    if HeaderLength(b).None? then None
    else Some(Media(b[1] % 128, Read32(b, 4), b[HeaderLength(b).value..]))
  }

  lemma NumbersRead(p: Packet, tail: Bytes)
    requires WellFormed(p)
    ensures var b := FixedHeader(p) + tail; Read32(b, 4) == p.timestamp && Read16(b, 2) == p.seqNo
  {
    var b := FixedHeader(p) + tail;
    var head: Bytes := [b[0], b[1]];
    assert b == head + Write16(p.seqNo) + (Write32(p.timestamp) + Write32(p.ssrc) + tail);
    ReadBack16(head, p.seqNo, Write32(p.timestamp) + Write32(p.ssrc) + tail);
    assert b == (head + Write16(p.seqNo)) + Write32(p.timestamp) + (Write32(p.ssrc) + tail);
    ReadBack32(head + Write16(p.seqNo), p.timestamp, Write32(p.ssrc) + tail);
  }

  lemma FlagsRead(p: Packet, tail: Bytes)
    requires WellFormed(p)
    ensures var b := FixedHeader(p) + tail;
            b[0] % 16 == |p.csrcs| && (b[0] / 16 % 2 == 1 <==> p.extension.Some?) && b[1] % 128 == p.payloadType
  {
  }

  lemma ExtensionLengthReads(p: Packet)
    requires WellFormed(p) && p.extension.Some?
    ensures var fixed := HEADER_LENGTH + 4 * |p.csrcs|;
            fixed + 4 <= |Encode(p)| && Read16(Encode(p), fixed + 2) == |p.extension.value.words|
  {
    var e := p.extension.value;
    var pre := FixedHeader(p) + Words(p.csrcs) + Write16(e.profile);
    assert Encode(p) == pre + Write16(|e.words|) + (Words(e.words) + p.payload);
    ReadBack16(pre, |e.words|, Words(e.words) + p.payload);
  }

  lemma HeaderEnds(p: Packet)
    requires WellFormed(p)
    ensures HeaderLength(Encode(p)) == Some(HEADER_LENGTH + 4 * |p.csrcs| + |ExtensionHeader(p.extension)|)
  {
    FlagsRead(p, Behind(p));
    if p.extension.Some? {
      ExtensionLengthReads(p);
    }
  }

  lemma PayloadIsLast(p: Packet)
    requires WellFormed(p)
    ensures Encode(p)[HEADER_LENGTH + 4 * |p.csrcs| + |ExtensionHeader(p.extension)|..] == p.payload
  {
    var front := FixedHeader(p) + Words(p.csrcs) + ExtensionHeader(p.extension);
    assert Encode(p) == front + p.payload;
  }

  lemma MediaFound(b: Bytes, n: nat, payload: Bytes)
    requires HeaderLength(b) == Some(n) && b[n..] == payload
    ensures ParseMedia(b) == Some(Media(b[1] % 128, Read32(b, 4), payload))
  {
  }

  /** Every packet in the standard's layout is read back: payload type, timestamp and exactly the
      octets behind the contributing sources and the header extension. */
  lemma ParseFindsPayload(p: Packet)
    requires WellFormed(p)
    ensures ParseMedia(Encode(p)) == Some(Media(p.payloadType, p.timestamp, p.payload))
  {
    HeaderEnds(p);
    PayloadIsLast(p);
    FlagsRead(p, Behind(p));
    NumbersRead(p, Behind(p));
    MediaFound(Encode(p), HEADER_LENGTH + 4 * |p.csrcs| + |ExtensionHeader(p.extension)|, p.payload);
  }

  /** The first two octets in the standard's layout: version, padding, extension, number of sources; marker,
      payload type. */
  lemma FlagsOnTheWire(p: Packet)
    requires WellFormed(p)
    ensures var b := Encode(p);
            && b[0] / 64 == 2
            && (b[0] / 32 % 2 == 1 <==> p.padding) && (b[0] / 16 % 2 == 1 <==> p.extension.Some?)
            && b[0] % 16 == |p.csrcs|
            && (b[1] / 128 == 1 <==> p.marker) && b[1] % 128 == p.payloadType
  {
    var b, flags := Encode(p), (if p.padding then 2 else 0) + (if p.extension.Some? then 1 else 0);
    assert b[0] == FixedHeader(p)[0] && b[1] == FixedHeader(p)[1];
    assert b[0] == 128 + 16 * flags + |p.csrcs|;
    assert b[0] / 16 == 8 + flags;
  }

  // ---------------------------------------------------------------------------------------------
  // DTMF, section 2.5.1.4 of RFC 4733

  const DIGITS := "0123456789*#ABCD"

  /** An End packet of a known event. */
  datatype End = End(timestamp: Word, digit: char)

  function EndOf(m: Media): Option<End> {
    if |m.payload| >= 4 && m.payload[1] >= 128 && m.payload[0] < |DIGITS|
    then Some(End(m.timestamp, DIGITS[m.payload[0]])) else None
  }

  /** Whether a datagram is an End packet of a known event, for a handler with these types. */
  function EndIn(m: Option<Media>, audioPt: nat, dtmfPt: nat): Option<End> {
    if m.Some? && m.value.payloadType != audioPt && m.value.payloadType == dtmfPt then EndOf(m.value) else None
  }

  /** The known End packets among the datagrams, and the audio payloads, in order. */
  function Ends(heard: seq<Bytes>, audioPt: nat, dtmfPt: nat): seq<End> {
    if heard == [] then []
    else
      var end := EndIn(ParseMedia(heard[|heard| - 1]), audioPt, dtmfPt);
      Ends(heard[..|heard| - 1], audioPt, dtmfPt) + (if end.Some? then [end.value] else [])
  }

  function AudioHeard(heard: seq<Bytes>, audioPt: nat): seq<Bytes> {
    if heard == [] then []
    else
      var m := ParseMedia(heard[|heard| - 1]);
      AudioHeard(heard[..|heard| - 1], audioPt)
      + (if m.Some? && m.value.payloadType == audioPt then [m.value.payload] else [])
  }

  /** Position i opens a maximal run of equal timestamps. */
  predicate OpensRun(ends: seq<End>, i: nat)
    requires i < |ends|
  {
    i == 0 || ends[i].timestamp != ends[i - 1].timestamp
  }

  /** The digit that opens each maximal run. */
  function OnePerRun(ends: seq<End>): string {
    if ends == [] then []
    else
      var n := |ends| - 1;
      OnePerRun(ends[..n]) + (if OpensRun(ends, n) then [ends[n].digit] else [])
  }

  /** However often the End packet of a press is repeated, the press is one digit. */
  lemma {:induction false} RepeatsAreOneDigit(ends: seq<End>, e: End, n: nat)
    requires ends == [] || ends[|ends| - 1].timestamp != e.timestamp
    ensures OnePerRun(ends + seq(n + 1, _ => e)) == OnePerRun(ends) + [e.digit]
  {
    var all := ends + seq(n + 1, _ => e);
    if n == 0 {
      assert all[..|all| - 1] == ends;
    } else {
      RepeatsAreOneDigit(ends, e, n - 1);
      assert all[..|all| - 1] == ends + seq(n, _ => e);
      assert all[|all| - 2] == e;
    }
  }

  // ---------------------------------------------------------------------------------------------
  // The handler

  /** The packet the k-th sendAudio builds. */
  function Outgoing(audioPt: nat, ssrc: Word, k: nat, payload: Bytes): Packet {
    Packet(false, [], None, false, audioPt % 128, k % TWO_16, SAMPLES_PER_PACKET * k % TWO_32, ssrc, payload)
  }

  /** What the handler has emitted, with the timestamp it remembers. */
  datatype Emitted = Emitted(audio: seq<Bytes>, digits: string, last: int)

  /** The emissions are what the datagrams `heard` call for: every audio payload, and one digit per
      maximal run of End packets with equal timestamps. */
  predicate Heard(heard: seq<Bytes>, audioPt: nat, dtmfPt: nat, e: Emitted) {
    && e.audio == AudioHeard(heard, audioPt)
    && e.digits == OnePerRun(Ends(heard, audioPt, dtmfPt))
    && e.last == LastTimestamp(Ends(heard, audioPt, dtmfPt))
  }

  /** One more packet. */
  function AfterMedia(e: Emitted, m: Media, audioPt: nat, dtmfPt: nat): Emitted {
    var end := EndIn(Some(m), audioPt, dtmfPt);
    if m.payloadType == audioPt then e.(audio := e.audio + [m.payload])
    else if end.Some? && end.value.timestamp != e.last
    then e.(digits := e.digits + [end.value.digit], last := end.value.timestamp)
    else e
  }

  lemma HearOne(heard: seq<Bytes>, b: Bytes, audioPt: nat, dtmfPt: nat, e: Emitted)
    requires Heard(heard, audioPt, dtmfPt, e)
    ensures Heard(heard + [b], audioPt, dtmfPt,
                  if ParseMedia(b).Some? then AfterMedia(e, ParseMedia(b).value, audioPt, dtmfPt) else e)
  {
    HeardSnoc(heard, b, audioPt, dtmfPt);
    var end := EndIn(ParseMedia(b), audioPt, dtmfPt);
    if end.Some? {
      OneMoreEnd(Ends(heard, audioPt, dtmfPt), end.value);
    }
  }

  /** The header walk of onMessage. */
  method ReadMedia(b: Bytes) returns (m: Option<Media>)
    ensures m == ParseMedia(b)
  {
    if |b| < HEADER_LENGTH {
      return None;
    }
    var csrcCount := b[0] % 16;
    var extBit := b[0] / 16 % 2 != 0;
    var headerLen := HEADER_LENGTH + csrcCount * 4;
    if extBit {
      if |b| < headerLen + 4 {
        return None;
      }
      headerLen := headerLen + 4 + Read16(b, headerLen + 2) * 4;
    }
    if |b| < headerLen {
      return None;
    }
    m := Some(Media(b[1] % 128, Read32(b, 4), b[headerLen..]));
  }

  class RtpHandler {
    const audioPt: nat
    const dtmfPt: nat
    const outSsrc: Word
    var forwardingEnabled: bool
    var remoteSet: bool
    var outSeq: nat
    var outTimestamp: Word
    var lastDtmfTimestamp: int
    /** Everything built so far, everything emitted so far. */
    var built: seq<Bytes>
    var audio: seq<Bytes>
    var digits: string
    /** The datagrams received while forwarding, and the payloads given to sendAudio. */
    ghost var heard: seq<Bytes>
    ghost var payloads: seq<Bytes>

    /** The send side: packet k is the k-th of the stream. */
    ghost predicate SendValid()
      reads `outSeq, `outTimestamp, `built, `payloads
    {
      && outSeq == |built| == |payloads| && outTimestamp == SAMPLES_PER_PACKET * outSeq % TWO_32
      && (forall k :: 0 <= k < |built| ==> built[k] == Encode(Outgoing(audioPt, outSsrc, k, payloads[k])))
    }

    /** The receive side: what was emitted is what the datagrams heard so far hold. */
    ghost predicate HearValid()
      reads `audio, `digits, `lastDtmfTimestamp, `heard
    {
      Heard(heard, audioPt, dtmfPt, Emitted(audio, digits, lastDtmfTimestamp))
    }

    ghost predicate Valid()
      reads this
    {
      SendValid() && HearValid()
    }

    constructor (audioPt: nat, dtmfPt: nat, outSsrc: Word)
      ensures Valid() && built == [] && audio == [] && digits == [] && !forwardingEnabled && !remoteSet
      ensures heard == [] && payloads == []
      ensures this.audioPt == audioPt && this.dtmfPt == dtmfPt && this.outSsrc == outSsrc
    {
      this.audioPt, this.dtmfPt, this.outSsrc := audioPt, dtmfPt, outSsrc;
      forwardingEnabled, remoteSet, outSeq, outTimestamp, lastDtmfTimestamp := false, false, 0, 0, -1;
      built, audio, digits := [], [], [];
      heard, payloads := [], [];
    }

    method StartForwarding()
      modifies `forwardingEnabled
      ensures forwardingEnabled
    {
      forwardingEnabled := true;
    }

    /** dispose: nothing is forwarded any more. */
    method Dispose()
      modifies `forwardingEnabled
      ensures !forwardingEnabled
    {
      forwardingEnabled := false;
    }

    method SetRemote()
      modifies `remoteSet
      ensures remoteSet
    {
      remoteSet := true;
    }

    /** sendAudio up to encryption; the counters move even if encryption then fails. */
    method SendAudio(payload: Bytes)
      requires SendValid()
      modifies `outSeq, `outTimestamp, `built, `payloads
      ensures SendValid()
      ensures payloads == if remoteSet then old(payloads) + [payload] else old(payloads)
      ensures |old(built)| <= |built| && built[..|old(built)|] == old(built)
    {
      if !remoteSet {
        return;
      }
      var header: Bytes := [0x80, audioPt % 128];
      header := header + Write16(outSeq % TWO_16);
      header := header + Write32(outTimestamp);
      header := header + Write32(outSsrc);
      PlainLayout(audioPt, outSsrc, outSeq, payload, header);
      NextTimestamp(outSeq);
      outSeq := outSeq + 1;
      outTimestamp := (outTimestamp + SAMPLES_PER_PACKET) % TWO_32;
      built := built + [header + payload];
      payloads := payloads + [payload];
    }

    /** The part of onMessage behind the header walk, while forwarding. */
    method Dispatch(m: Media)
      modifies `lastDtmfTimestamp, `audio, `digits
      ensures Emitted(audio, digits, lastDtmfTimestamp)
           == AfterMedia(Emitted(old(audio), old(digits), old(lastDtmfTimestamp)), m, audioPt, dtmfPt)
    {
      if m.payloadType == audioPt {
        audio := audio + [m.payload];
        return;
      }
      if m.payloadType == dtmfPt {
        if |m.payload| < 4 {
          return;
        }
        if m.payload[1] >= 128 {
          var eventCode := m.payload[0];
          if eventCode < |DIGITS| && m.timestamp != lastDtmfTimestamp {
            lastDtmfTimestamp := m.timestamp;
            digits := digits + [DIGITS[eventCode]];
          }
        }
      }
    }

    /** onMessage after decryption. The header walk has no effect of its own, so the forwarding check may
        come before it. */
    method OnMessage(b: Bytes)
      requires HearValid()
      modifies `lastDtmfTimestamp, `audio, `digits, `heard
      ensures HearValid()
      ensures heard == if forwardingEnabled then old(heard) + [b] else old(heard)
    {
      if forwardingEnabled {
        var m := ReadMedia(b);
        HearOne(heard, b, audioPt, dtmfPt, Emitted(audio, digits, lastDtmfTimestamp));
        if m.Some? {
          Dispatch(m.value);
        }
        heard := heard + [b];
      }
    }
  }

  lemma HeardSnoc(heard: seq<Bytes>, b: Bytes, audioPt: nat, dtmfPt: nat)
    ensures var m, end := ParseMedia(b), EndIn(ParseMedia(b), audioPt, dtmfPt);
            && AudioHeard(heard + [b], audioPt)
               == (if m.Some? && m.value.payloadType == audioPt then AudioHeard(heard, audioPt) + [m.value.payload]
                   else AudioHeard(heard, audioPt))
            && Ends(heard + [b], audioPt, dtmfPt)
               == (if end.Some? then Ends(heard, audioPt, dtmfPt) + [end.value] else Ends(heard, audioPt, dtmfPt))
  {
    assert (heard + [b])[..|heard|] == heard;
  }

  lemma PlainLayout(audioPt: nat, ssrc: Word, k: nat, payload: Bytes, header: Bytes)
    requires header == [0x80, audioPt % 128] + Write16(k % TWO_16)
                       + Write32(SAMPLES_PER_PACKET * k % TWO_32) + Write32(ssrc)
    ensures Encode(Outgoing(audioPt, ssrc, k, payload)) == header + payload
  {
    var p := Outgoing(audioPt, ssrc, k, payload);
    assert Words(p.csrcs) == [] && ExtensionHeader(p.extension) == [];
    assert FixedHeader(p) == header;
  }

  lemma SameResidue(x: int, y: int, k: int)
    requires x == y + TWO_32 * k
    ensures x % TWO_32 == y % TWO_32
  {
  }

  lemma NextTimestamp(k: nat)
    ensures (SAMPLES_PER_PACKET * k % TWO_32 + SAMPLES_PER_PACKET) % TWO_32 == SAMPLES_PER_PACKET * (k + 1) % TWO_32
  {
    var t := SAMPLES_PER_PACKET * k;
    SameResidue(t % TWO_32 + SAMPLES_PER_PACKET, t + SAMPLES_PER_PACKET, -(t / TWO_32));
  }

  lemma OneMoreEnd(ends: seq<End>, e: End)
    ensures LastTimestamp(ends + [e]) == e.timestamp
    ensures OnePerRun(ends + [e]) == OnePerRun(ends) + (if LastTimestamp(ends) != e.timestamp then [e.digit] else [])
  {
    assert (ends + [e])[..|ends|] == ends;
  }

  /** The timestamp of the last End packet, -1 before the first. */
  function LastTimestamp(ends: seq<End>): int {
    if ends == [] then -1 else ends[|ends| - 1].timestamp
  }

  /** The receive path recovers payload and payload type of every packet the send path builds, and the
      k-th packet carries sequence number k mod 2^16 and timestamp 160k mod 2^32. */
  lemma ReceiverRecovers(audioPt: nat, ssrc: Word, k: nat, payload: Bytes)
    ensures var b := Encode(Outgoing(audioPt, ssrc, k, payload));
            && ParseMedia(b) == Some(Media(audioPt % 128, SAMPLES_PER_PACKET * k % TWO_32, payload))
            && Read16(b, 2) == k % TWO_16 && Read32(b, 4) == SAMPLES_PER_PACKET * k % TWO_32
  {
    var p := Outgoing(audioPt, ssrc, k, payload);
    ParseFindsPayload(p);
    NumbersRead(p, Behind(p));
  }

  /** The octets of the k-th packet: version 2 and nothing else in the first, then payload type, sequence
      number, timestamp and source, the most significant octet first. */
  lemma PacketOnTheWire(audioPt: nat, ssrc: Word, k: nat, payload: Bytes)
    ensures var seqNo, t := k % 65536, 160 * k % 4294967296;
            Encode(Outgoing(audioPt, ssrc, k, payload))
            == [128, audioPt % 128, seqNo / 256, seqNo % 256,
                t / 16777216, t / 65536 % 256, t / 256 % 256, t % 256,
                ssrc / 16777216, ssrc / 65536 % 256, ssrc / 256 % 256, ssrc % 256] + payload
  {
    var seqNo, t := k % 65536, 160 * k % 4294967296;
    Octets(t);
    Octets(ssrc);
    var header := [128, audioPt % 128] + Write16(seqNo) + Write32(t) + Write32(ssrc);
    PlainLayout(audioPt, ssrc, k, payload, header);
  }

  /** Writing the four octets of a word from the highest down gives the word of these digits. */
  lemma FourDigits(a: nat, b: nat, c: nat, d: nat)
    requires a < 256 && b < 256 && c < 256 && d < 256
    ensures var high, low := 256 * a + b, 256 * c + d;
            Write32(65536 * high + low) == [a, b, c, d]
  {
    var high, low := 256 * a + b, 256 * c + d;
    assert (65536 * high + low) / 65536 == high && (65536 * high + low) % 65536 == low;
  }

  lemma Octets(v: Word)
    ensures Write32(v) == [v / 16777216, v / 65536 % 256, v / 256 % 256, v % 256]
  {
    var x := v / 256;
    var y := x / 256;
    assert y == v / 65536 && y / 256 == v / 16777216;
    assert v == 65536 * (256 * (y / 256) + y % 256) + (256 * (x % 256) + v % 256);
    FourDigits(y / 256, y % 256, x % 256, v % 256);
  }

  /** The key that an event number stands for. */
  function Key(event: nat): char
    requires event < 16
  {
    if event < 10 then '0' + event as char
    else if event == 10 then '*' else if event == 11 then '#' else 'A' + (event - 12) as char
  }

  lemma DigitsAreKeys(event: nat)
    requires event < 16
    ensures |DIGITS| == 16 && DIGITS[event] == Key(event)
  {
  }

  /** Of a packet of the telephone-event type one digit is heard if and only if it has four octets, its End
      bit and one of the sixteen keys. */
  lemma {:induction false} KeyIsHeard(p: Packet, audioPt: nat, dtmfPt: nat)
    requires WellFormed(p) && p.payloadType == dtmfPt && dtmfPt != audioPt
    ensures Ends([Encode(p)], audioPt, dtmfPt)
            == if |p.payload| >= 4 && p.payload[1] > 127 && p.payload[0] < 16
               then [End(p.timestamp, Key(p.payload[0]))] else []
  {
    ParseFindsPayload(p);
    HeardSnoc([], Encode(p), audioPt, dtmfPt);
    assert [] + [Encode(p)] == [Encode(p)];
    assert |DIGITS| == 16;
    if |p.payload| >= 4 && p.payload[0] < 16 {
      DigitsAreKeys(p.payload[0]);
    }
  }

  // ---------------------------------------------------------------------------------------------
  // Which offered telephone-event types can ever yield a digit

  /** An End packet of event 0 with the given payload type. */
  function EndPacket(payloadType: nat): Packet {
    Packet(false, [], None, false, payloadType, 0, 0, 0, [0, 128, 0, 0])
  }

  lemma {:induction false} EndPacketIsHeard(audioPt: nat, dtmfPt: nat)
    requires dtmfPt < 128 && dtmfPt != audioPt
    ensures Ends([Encode(EndPacket(dtmfPt))], audioPt, dtmfPt) == [End(0, '0')]
  {
    ParseFindsPayload(EndPacket(dtmfPt));
    var heard: seq<Bytes> := [Encode(EndPacket(dtmfPt))];
    assert heard[..0] == [];
    assert Ends(heard[..0], audioPt, dtmfPt) == [];
    assert DIGITS[0] == '0';
  }

  lemma {:induction false} NoEndIsHeard(heard: seq<Bytes>, audioPt: nat, dtmfPt: nat)
    requires dtmfPt >= 128 || dtmfPt == audioPt
    ensures Ends(heard, audioPt, dtmfPt) == []
  {
    if heard != [] {
      NoEndIsHeard(heard[..|heard| - 1], audioPt, dtmfPt);
    }
  }

  lemma OneRunPerEnds(ends: seq<End>)
    ensures OnePerRun(ends) == [] <==> ends == []
  {
    if ends != [] {
      assert OpensRun(ends[..1], 0) && ends[..1][..0] == [];
      FirstRunStays(ends, |ends|);
    }
  }

  lemma {:induction false} FirstRunStays(ends: seq<End>, n: nat)
    requires 1 <= n <= |ends|
    ensures OnePerRun(ends[..n]) != []
  {
    assert ends[..n][..n - 1] == ends[..n - 1];
    if n > 1 {
      FirstRunStays(ends, n - 1);
    }
    assert ends[..|ends|] == ends;
  }

  /** The telephone-event type comes from the offer without a bound. A handler can ever emit a digit if
      and only if that type fits in seven bits and is not the audio type; for any other offered value,
      such as 200, every key press is lost. */
  lemma DigitsCanBeHeardIff(audioPt: nat, dtmfPt: nat)
    ensures (exists heard :: Ends(heard, audioPt, dtmfPt) != []) <==> dtmfPt < 128 && dtmfPt != audioPt
    ensures (exists heard :: OnePerRun(Ends(heard, audioPt, dtmfPt)) != []) <==> dtmfPt < 128 && dtmfPt != audioPt
  {
    if dtmfPt < 128 && dtmfPt != audioPt {
      EndPacketIsHeard(audioPt, dtmfPt);
      var heard: seq<Bytes> := [Encode(EndPacket(dtmfPt))];
      assert Ends(heard, audioPt, dtmfPt) != [];
      OneRunPerEnds(Ends(heard, audioPt, dtmfPt));
      assert OnePerRun(Ends(heard, audioPt, dtmfPt)) != [];
    } else {
      forall heard
        ensures Ends(heard, audioPt, dtmfPt) == []
      {
        NoEndIsHeard(heard, audioPt, dtmfPt);
      }
    }
  }

  /** A payload type of the offer, and whether its rtpmap line names telephone-event. */
  datatype Offered = Offered(payloadType: nat, isEvent: bool)

  /** The type parseSdpOffer picks for DTMF: the last telephone-event entry, or 101. */
  function DtmfPt(offer: seq<Offered>): nat {
    if offer == [] then 101
    else if offer[|offer| - 1].isEvent then offer[|offer| - 1].payloadType
    else DtmfPt(offer[..|offer| - 1])
  }

  predicate OffersAudio(offer: seq<Offered>, payloadType: nat) {
    Offered(payloadType, false) in offer
  }

  /** selectAudioCodec: in mode best the first of 9, 8 and 0 that is offered, else always 0. */
  function SelectAudioCodec(offer: seq<Offered>, best: bool): nat {
    if best && OffersAudio(offer, 9) then 9 else if best && OffersAudio(offer, 8) then 8 else 0
  }

  /** The wideband codec is taken where it is offered as audio, then A-law, and mu-law otherwise and in any
      other mode. */
  lemma CodecIsSelected(offer: seq<Offered>, best: bool)
    ensures var pt := SelectAudioCodec(offer, best);
            && (pt == 9 <==> best && exists k :: 0 <= k < |offer| && offer[k] == Offered(9, false))
            && (pt == 8 <==> best && pt != 9 && exists k :: 0 <= k < |offer| && offer[k] == Offered(8, false))
            && (pt != 9 && pt != 8 ==> pt == 0)
  {
  }

  /** Whatever is offered, and whatever has been heard before: of each packet in the standard's layout a
      handler hears the payload if and only if it has the audio type negotiated. */
  lemma {:induction false} NegotiatedAudioIsHeard(offer: seq<Offered>, best: bool, heard: seq<Bytes>, p: Packet)
    requires WellFormed(p)
    ensures var audioPt := SelectAudioCodec(offer, best);
            AudioHeard(heard + [Encode(p)], audioPt)
            == if p.payloadType == audioPt then AudioHeard(heard, audioPt) + [p.payload] else AudioHeard(heard, audioPt)
  {
    ParseFindsPayload(p);
    HeardSnoc(heard, Encode(p), SelectAudioCodec(offer, best), DtmfPt(offer));
  }

  predicate NoEvents(offer: seq<Offered>) {
    forall i :: 0 <= i < |offer| ==> !offer[i].isEvent
  }

  /** The last telephone-event entry names the type, wherever it stands; without any it is 101. */
  lemma {:induction false} LastEventEntryWins(front: seq<Offered>, payloadType: nat, back: seq<Offered>)
    requires NoEvents(back)
    ensures DtmfPt(front + [Offered(payloadType, true)] + back) == payloadType
    ensures DtmfPt(back) == 101
  {
    var all := front + [Offered(payloadType, true)] + back;
    if back == [] {
      assert all[|all| - 1] == Offered(payloadType, true);
    } else {
      var others := back[..|back| - 1];
      assert all[|all| - 1] == back[|back| - 1];
      assert all[..|all| - 1] == front + [Offered(payloadType, true)] + others;
      LastEventEntryWins(front, payloadType, others);
    }
  }

  /** For every offer: the call can have a digit if and only if the telephone-event type found in it fits in
      seven bits and is not the audio type negotiated. */
  lemma OfferDecidesDigits(offer: seq<Offered>, best: bool)
    ensures (exists heard :: OnePerRun(Ends(heard, SelectAudioCodec(offer, best), DtmfPt(offer))) != [])
            <==> DtmfPt(offer) < 128 && DtmfPt(offer) != SelectAudioCodec(offer, best)
  {
    DigitsCanBeHeardIff(SelectAudioCodec(offer, best), DtmfPt(offer));
  }

  /** An offer of PCMU and of telephone-event as type 200: no datagrams whatever yield a digit. */
  lemma OfferedTypeOutOfRange(heard: seq<Bytes>, best: bool)
    ensures var offer := [Offered(0, false), Offered(200, true)];
            OnePerRun(Ends(heard, SelectAudioCodec(offer, best), DtmfPt(offer))) == []
  {
    var offer := [Offered(0, false), Offered(200, true)];
    assert offer[1] == Offered(200, true) && DtmfPt(offer) == 200;
    NoEndIsHeard(heard, SelectAudioCodec(offer, best), 200);
  }

  // ---------------------------------------------------------------------------------------------
  // A whole call

  /** A handler from creation to disposal: datagrams before forwarding starts and after disposal leave no
      trace, those in between are heard; packets before the remote is known are not built. */
  method WholeCall(audioPt: nat, dtmfPt: nat, ssrc: Word, early: seq<Bytes>, during: seq<Bytes>, late: seq<Bytes>,
                   tooSoon: Bytes, payload: Bytes)
    returns (audio: seq<Bytes>, digits: string, built: seq<Bytes>)
    ensures audio == AudioHeard(during, audioPt)
    ensures digits == OnePerRun(Ends(during, audioPt, dtmfPt))
    ensures built == [Encode(Outgoing(audioPt, ssrc, 0, payload))]
  {
    var handler := new RtpHandler(audioPt, dtmfPt, ssrc);
    built := SendTwo(handler, tooSoon, payload);
    Ignore(handler, early);
    handler.StartForwarding();
    Hear(handler, during);
    assert handler.heard == during;
    handler.Dispose();
    Ignore(handler, late);
    audio, digits := handler.audio, handler.digits;
  }

  /** One packet before the remote endpoint is known and one after. */
  method SendTwo(handler: RtpHandler, tooSoon: Bytes, payload: Bytes) returns (built: seq<Bytes>)
    requires handler.SendValid() && handler.payloads == [] && !handler.remoteSet
    modifies handler`outSeq, handler`outTimestamp, handler`built, handler`payloads, handler`remoteSet
    ensures built == [Encode(Outgoing(handler.audioPt, handler.outSsrc, 0, payload))]
  {
    handler.SendAudio(tooSoon);
    handler.SetRemote();
    handler.SendAudio(payload);
    assert handler.payloads == [payload] && |handler.built| == 1;
    built := handler.built;
  }

  /** Datagrams arriving one after another while the handler forwards. */
  method Hear(handler: RtpHandler, datagrams: seq<Bytes>)
    requires handler.HearValid() && handler.forwardingEnabled && handler.heard == []
    modifies handler`lastDtmfTimestamp, handler`audio, handler`digits, handler`heard
    ensures handler.HearValid() && handler.heard == datagrams
  {
    for i := 0 to |datagrams|
      invariant handler.HearValid() && handler.heard == datagrams[..i]
    {
      handler.OnMessage(datagrams[i]);
    }
  }

  /** Datagrams arriving while it does not. */
  method Ignore(handler: RtpHandler, datagrams: seq<Bytes>)
    requires handler.HearValid() && !handler.forwardingEnabled
    modifies handler`lastDtmfTimestamp, handler`audio, handler`digits, handler`heard
    ensures handler.HearValid() && handler.heard == old(handler.heard)
  {
    for i := 0 to |datagrams|
      invariant handler.HearValid() && handler.heard == old(handler.heard)
    {
      handler.OnMessage(datagrams[i]);
    }
  }
}
