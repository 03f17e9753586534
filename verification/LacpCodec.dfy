/** The wire form of an LACPDU: 109 bytes after the slow-protocols subtype. */
module LacpCodec {
  import opened Wrappers
  import opened LacpTypes

  /** Every field of an LACPDU, the reserved ones included. */
  datatype Pdu = Pdu(
    version: Byte,
    actorType: Byte, actorLength: Byte, actorInfo: ParticipantInfo, actorReserved: seq<Byte>,
    partnerType: Byte, partnerLength: Byte, partnerInfo: ParticipantInfo, partnerReserved: seq<Byte>,
    collectorType: Byte, collectorLength: Byte, maxDelay: U16, collectorReserved: seq<Byte>,
    terminatorType: Byte, terminatorLength: Byte, terminatorReserved: seq<Byte>)
  {
    /** The reserved fields are arrays of fixed size. */
    predicate WellFormed()
    {
      && |actorReserved| == 3 && |partnerReserved| == 3
      && |collectorReserved| == 12 && |terminatorReserved| == 50
    }

    predicate ZeroReserved()
    {
      && actorReserved == Zeros(3) && partnerReserved == Zeros(3)
      && collectorReserved == Zeros(12) && terminatorReserved == Zeros(50)
    }
  }

  const PDU_LENGTH: nat := 109
  const FRAME_LENGTH: nat := 128
  const INFO_LENGTH: nat := 15

  function Zeros(n: nat): seq<Byte>
  {
    seq(n, _ => 0)
  }

  /** The PDU a controller builds from its two participants. */
  function PduFor(actor: ParticipantInfo, partner: ParticipantInfo): Pdu
  {
    Pdu(1, 1, 0x14, actor, Zeros(3), 2, 0x14, partner, Zeros(3), 3, 0x10, 0, Zeros(12), 0, 0, Zeros(50))
  }

  function Pow2(n: nat): nat
  {
    if n == 0 then 1 else 2 * Pow2(n - 1)
  }

  /** The number whose binary digits are `flags`, least significant first. */
  function Value(flags: seq<bool>): (n: nat)
    ensures n < Pow2(|flags|)
  {
    if flags == [] then 0 else (if flags[0] then 1 else 0) + 2 * Value(flags[1..])
  }

  function Flags(n: nat, count: nat): (flags: seq<bool>)
    ensures |flags| == count
  {
    if count == 0 then [] else [n % 2 == 1] + Flags(n / 2, count - 1)
  }

  /** The state octet, ACTIVE in bit 0 up to EXPIRED in bit 7. */
  function FlagsOf(s: LacpState): seq<bool>
  {
    [s.active, s.shortTimeout, s.aggregatable, s.inSync, s.collecting, s.distributing, s.defaulted, s.expired]
  }

  function FromFlags(f: seq<bool>): (s: LacpState)
    requires |f| == 8
    ensures FlagsOf(s) == f
  {
    LacpState(f[0], f[1], f[2], f[3], f[4], f[5], f[6], f[7])
  }

  function StateByte(s: LacpState): Byte
  {
    assert Pow2(8) == 0x100;
    Value(FlagsOf(s))
  }

  function StateOf(b: Byte): LacpState
  {
    FromFlags(Flags(b, 8))
  }

  function Big(x: U16): seq<Byte>
  {
    [x / 0x100, x % 0x100]
  }

  function InfoBytes(i: ParticipantInfo): (b: seq<Byte>)
    ensures |b| == INFO_LENGTH
  {
    Big(i.systemPriority) + i.systemID + Big(i.key) + Big(i.portPriority) + Big(i.port) + [StateByte(i.state)]
  }

  function InfoTlv(kind: Byte, length: Byte, info: ParticipantInfo, reserved: seq<Byte>): seq<Byte>
  {
    [kind] + [length] + InfoBytes(info) + reserved
  }

  function CollectorTlv(p: Pdu): seq<Byte>
  {
    [p.collectorType] + [p.collectorLength] + Big(p.maxDelay) + p.collectorReserved
  }

  function TerminatorTlv(p: Pdu): seq<Byte>
  {
    [p.terminatorType] + [p.terminatorLength] + p.terminatorReserved
  }

  /** The bytes `to` writes. */
  function Encode(p: Pdu): seq<Byte>
  {
    [p.version]
    + InfoTlv(p.actorType, p.actorLength, p.actorInfo, p.actorReserved)
    + InfoTlv(p.partnerType, p.partnerLength, p.partnerInfo, p.partnerReserved)
    + CollectorTlv(p)
    + TerminatorTlv(p)
  }

  // The layout of the standard, by offset.

  function U16At(b: seq<Byte>, at: nat): U16
    requires at + 2 <= |b|
  {
    var high: int, low: int := b[at], b[at + 1];
    high * 0x100 + low
  }

  function InfoAt(b: seq<Byte>, at: nat): ParticipantInfo
    requires at + INFO_LENGTH <= |b|
  {
    ParticipantInfo(U16At(b, at), b[at + 2..at + 8], U16At(b, at + 8), U16At(b, at + 10), U16At(b, at + 12),
                    StateOf(b[at + 14]))
  }

  function Decode(b: seq<Byte>): Option<Pdu>
  {
    if |b| < PDU_LENGTH then None
    else Some(Pdu(
                b[0],
                b[1], b[2], InfoAt(b, 3), Zeros(3),
                b[21], b[22], InfoAt(b, 23), Zeros(3),
                b[41], b[42], U16At(b, 43), Zeros(12),
                b[57], b[58], Zeros(50)))
  }

  /** Whether the bytes that `from` skips are zero. */
  predicate SkippedAreZero(b: seq<Byte>)
    requires |b| >= PDU_LENGTH
  {
    b[18..21] == Zeros(3) && b[38..41] == Zeros(3) && b[45..57] == Zeros(12) && b[59..109] == Zeros(50)
  }

  lemma {:induction false} FlagsRoundTrip(flags: seq<bool>)
    ensures Flags(Value(flags), |flags|) == flags
  {
    if flags != [] {
      FlagsRoundTrip(flags[1..]);
    }
  }

  lemma {:induction false} ValueRoundTrip(n: nat, count: nat)
    requires n < Pow2(count)
    ensures Value(Flags(n, count)) == n
  {
    if count > 0 {
      ValueRoundTrip(n / 2, count - 1);
      assert Flags(n, count)[1..] == Flags(n / 2, count - 1);
    }
  }

  lemma StateRoundTrip(s: LacpState)
    ensures StateOf(StateByte(s)) == s
  {
    FlagsRoundTrip(FlagsOf(s));
  }

  lemma OctetRoundTrip(b: Byte)
    ensures StateByte(StateOf(b)) == b
  {
    assert Pow2(8) == 0x100;
    ValueRoundTrip(b, 8);
  }

  lemma InfoLayout(i: ParticipantInfo)
    ensures InfoAt(InfoBytes(i), 0) == i
  {
    var w := InfoBytes(i);
    assert w[0..2] == Big(i.systemPriority) && w[2..8] == i.systemID && w[8..10] == Big(i.key);
    assert w[10..12] == Big(i.portPriority) && w[12..14] == Big(i.port) && w[14] == StateByte(i.state);
    BigAt(w, 0, i.systemPriority);
    BigAt(w, 8, i.key);
    BigAt(w, 10, i.portPriority);
    BigAt(w, 12, i.port);
    StateRoundTrip(i.state);
  }

  lemma BigAt(b: seq<Byte>, at: nat, x: U16)
    requires at + 2 <= |b| && b[at..at + 2] == Big(x)
    ensures U16At(b, at) == x
  {
    assert b[at] == b[at..at + 2][0] && b[at + 1] == b[at..at + 2][1];
  }

  lemma InfoRoundTrip(i: ParticipantInfo, b: seq<Byte>, at: nat)
    requires at + INFO_LENGTH <= |b| && b[at..at + INFO_LENGTH] == InfoBytes(i)
    ensures InfoAt(b, at) == i
  {
    var w := b[at..at + INFO_LENGTH];
    assert w[2..8] == b[at + 2..at + 8] by { Subslice(b, at, INFO_LENGTH, 2, 8); }
    assert InfoAt(w, 0) == InfoAt(b, at);
    InfoLayout(i);
  }

  lemma BigBack(b: seq<Byte>, at: nat)
    requires at + 2 <= |b|
    ensures Big(U16At(b, at)) == b[at..at + 2]
  {
    assert b[at..at + 2] == [b[at], b[at + 1]];
  }

  lemma Subslice(b: seq<Byte>, at: nat, n: nat, i: nat, j: nat)
    requires i <= j <= n && at + n <= |b|
    ensures b[at..at + n][i..j] == b[at + i..at + j]
  {
    var s, t := b[at..at + n][i..j], b[at + i..at + j];
    assert |s| == |t|;
    assert forall k | 0 <= k < j - i :: s[k] == b[at..at + n][i + k] == b[at + (i + k)] && t[k] == b[at + i + k];
  }

  lemma InfoBytesBack(b: seq<Byte>, at: nat)
    requires at + INFO_LENGTH <= |b|
    ensures InfoBytes(InfoAt(b, at)) == b[at..at + INFO_LENGTH]
  {
    BigBack(b, at);
    BigBack(b, at + 8);
    BigBack(b, at + 10);
    BigBack(b, at + 12);
    OctetRoundTrip(b[at + 14]);
    assert b[at..at + INFO_LENGTH]
        == b[at..at + 2] + b[at + 2..at + 8] + b[at + 8..at + 10]
           + b[at + 10..at + 12] + b[at + 12..at + 14] + [b[at + 14]];
  }

  predicate InfoTlvAt(b: seq<Byte>, at: nat, kind: Byte, length: Byte, info: ParticipantInfo)
  {
    at + 17 <= |b| && b[at] == kind && b[at + 1] == length && InfoAt(b, at + 2) == info
  }

  lemma InfoTlvRoundTrip(kind: Byte, length: Byte, info: ParticipantInfo, reserved: seq<Byte>, b: seq<Byte>, at: nat)
    requires |reserved| == 3
    requires at + 20 <= |b| && b[at..at + 20] == InfoTlv(kind, length, info, reserved)
    ensures InfoTlvAt(b, at, kind, length, info)
  {
    var w := InfoTlv(kind, length, info, reserved);
    assert b[at] == b[at..at + 20][0] == w[0] && b[at + 1] == b[at..at + 20][1] == w[1];
    Subslice(b, at, 20, 2, 17);
    assert w[2..17] == InfoBytes(info);
    InfoRoundTrip(info, b, at + 2);
  }

  lemma InfoTlvBack(b: seq<Byte>, at: nat, reserved: seq<Byte>)
    requires at + 20 <= |b| && |reserved| == 3
    ensures InfoTlv(b[at], b[at + 1], InfoAt(b, at + 2), reserved) == b[at..at + 20] <==>
            b[at + 17..at + 20] == reserved
  {
    InfoBytesBack(b, at + 2);
    var w := b[at..at + 20];
    var t := InfoTlv(b[at], b[at + 1], InfoAt(b, at + 2), reserved);
    assert t == [b[at], b[at + 1]] + b[at + 2..at + 17] + reserved;
    assert w == [b[at], b[at + 1]] + b[at + 2..at + 17] + b[at + 17..at + 20];
    assert t[17..] == reserved && w[17..] == b[at + 17..at + 20];
  }

  lemma FiveParts(a: seq<Byte>, b: seq<Byte>, c: seq<Byte>, d: seq<Byte>, e: seq<Byte>)
    requires |a| == 1 && |b| == |c| == 20 && |d| == 16 && |e| == 52
    ensures var s := a + b + c + d + e;
            && |s| == PDU_LENGTH && s[0] == a[0] && s[1..21] == b && s[21..41] == c && s[41..57] == d && s[57..109] == e
  {
    var s := a + b + c + d + e;
    assert s[57..109] == e;
  }

  /** Where each part of an encoding lies. */
  lemma Layout(p: Pdu)
    requires p.WellFormed()
    ensures |Encode(p)| == PDU_LENGTH && Encode(p)[0] == p.version
    ensures Encode(p)[1..21] == InfoTlv(p.actorType, p.actorLength, p.actorInfo, p.actorReserved)
    ensures Encode(p)[21..41] == InfoTlv(p.partnerType, p.partnerLength, p.partnerInfo, p.partnerReserved)
    ensures Encode(p)[41..57] == CollectorTlv(p)
    ensures Encode(p)[57..109] == TerminatorTlv(p)
  {
    FiveParts([p.version],
              InfoTlv(p.actorType, p.actorLength, p.actorInfo, p.actorReserved),
              InfoTlv(p.partnerType, p.partnerLength, p.partnerInfo, p.partnerReserved),
              CollectorTlv(p), TerminatorTlv(p));
  }

  lemma TailRoundTrip(p: Pdu, b: seq<Byte>)
    requires p.WellFormed() && |b| >= PDU_LENGTH
    requires b[41..57] == CollectorTlv(p) && b[57..109] == TerminatorTlv(p)
    ensures b[41] == p.collectorType && b[42] == p.collectorLength && U16At(b, 43) == p.maxDelay
    ensures b[57] == p.terminatorType && b[58] == p.terminatorLength
  {
    var c, t := CollectorTlv(p), TerminatorTlv(p);
    assert forall k | 0 <= k < 4 :: b[41 + k] == b[41..57][k] == c[k];
    assert forall k | 0 <= k < 2 :: b[57 + k] == b[57..109][k] == t[k];
    assert c[2] == p.maxDelay / 0x100 && c[3] == p.maxDelay % 0x100;
  }

  /** A PDU survives the wire, whatever follows it, exactly when its reserved bytes are zero. */
  lemma RoundTrip(p: Pdu, rest: seq<Byte>)
    requires p.WellFormed()
    ensures Decode(Encode(p) + rest) == Some(p) <==> p.ZeroReserved()
  {
    var e := Encode(p);
    var b := e + rest;
    Layout(p);
    assert b[1..21] == e[1..21] && b[21..41] == e[21..41] && b[41..57] == e[41..57] && b[57..109] == e[57..109];
    InfoTlvRoundTrip(p.actorType, p.actorLength, p.actorInfo, p.actorReserved, b, 1);
    InfoTlvRoundTrip(p.partnerType, p.partnerLength, p.partnerInfo, p.partnerReserved, b, 21);
    TailRoundTrip(p, b);
  }

  // ---- the bytes, one by one ----

  function Digit(flag: bool): nat
  {
    if flag then 1 else 0
  }

  /** The octet of a state, by the weight of each flag. */
  function Octet(s: LacpState): nat
  {
    Digit(s.active) + 2 * Digit(s.shortTimeout) + 4 * Digit(s.aggregatable) + 8 * Digit(s.inSync)
    + 16 * Digit(s.collecting) + 32 * Digit(s.distributing) + 64 * Digit(s.defaulted) + 128 * Digit(s.expired)
  }

  lemma TwoFlags(f: seq<bool>)
    requires |f| >= 2
    ensures Value(f) == Digit(f[0]) + 2 * Digit(f[1]) + 4 * Value(f[2..])
  {
    assert f[1..][1..] == f[2..];
  }

  lemma FourFlags(f: seq<bool>)
    requires |f| >= 4
    ensures Value(f) == Digit(f[0]) + 2 * Digit(f[1]) + 4 * Digit(f[2]) + 8 * Digit(f[3]) + 16 * Value(f[4..])
  {
    TwoFlags(f);
    TwoFlags(f[2..]);
    assert f[2..][2..] == f[4..];
  }

  lemma OctetIs(s: LacpState)
    ensures StateByte(s) == Octet(s)
  {
    var f := FlagsOf(s);
    FourFlags(f);
    FourFlags(f[4..]);
    assert f[4..][4..] == [];
    LowAndHigh(s, f[4..]);
  }

  lemma LowAndHigh(s: LacpState, high: seq<bool>)
    requires high == [s.collecting, s.distributing, s.defaulted, s.expired]
    requires Value(high) == Digit(high[0]) + 2 * Digit(high[1]) + 4 * Digit(high[2]) + 8 * Digit(high[3])
    ensures Octet(s) == Digit(s.active) + 2 * Digit(s.shortTimeout) + 4 * Digit(s.aggregatable) + 8 * Digit(s.inSync)
                        + 16 * Value(high)
  {
  }

  /** Two bytes of a number, the high one first. */
  predicate BigEndian(b: seq<Byte>, at: nat, x: U16)
    requires at + 2 <= |b|
  {
    b[at] == x / 0x100 && b[at + 1] == x % 0x100
  }

  /** The 15 bytes of a participant: system priority, system, key, port priority, port and state. */
  predicate InfoLaidOut(b: seq<Byte>, at: nat, i: ParticipantInfo)
    requires at + 15 <= |b|
  {
    && BigEndian(b, at, i.systemPriority) && b[at + 2..at + 8] == i.systemID && BigEndian(b, at + 8, i.key)
    && BigEndian(b, at + 10, i.portPriority) && BigEndian(b, at + 12, i.port) && b[at + 14] == Octet(i.state)
  }

  /** The 109 bytes of a PDU. */
  predicate LaidOut(b: seq<Byte>, p: Pdu)
    requires |b| >= 109
  {
    && b[0] == p.version
    && b[1] == p.actorType && b[2] == p.actorLength && InfoLaidOut(b, 3, p.actorInfo)
    && b[21] == p.partnerType && b[22] == p.partnerLength && InfoLaidOut(b, 23, p.partnerInfo)
    && b[41] == p.collectorType && b[42] == p.collectorLength && BigEndian(b, 43, p.maxDelay)
    && b[57] == p.terminatorType && b[58] == p.terminatorLength
  }

  lemma InfoReads(b: seq<Byte>, at: nat)
    requires at + 15 <= |b|
    ensures InfoLaidOut(b, at, InfoAt(b, at))
  {
    OctetIs(StateOf(b[at + 14]));
    OctetRoundTrip(b[at + 14]);
  }

  lemma TailReads(b: seq<Byte>, at: nat)
    requires at + 2 <= |b|
    ensures BigEndian(b, at, U16At(b, at))
  {
  }

  /** Every field is read from its own bytes. */
  lemma DecodesByOffset(b: seq<Byte>)
    requires |b| >= 109
    ensures Decode(b).Some? && LaidOut(b, Decode(b).value)
  {
    InfoReads(b, 3);
    InfoReads(b, 23);
    TailReads(b, 43);
  }

  /** Every field is written to its own bytes, and the reserved ones to theirs. */
  lemma EncodesByOffset(p: Pdu)
    requires p.WellFormed()
    ensures var b := Encode(p);
            && |b| == 109 && LaidOut(b, p)
            && b[18..21] == p.actorReserved && b[38..41] == p.partnerReserved
            && b[45..57] == p.collectorReserved && b[59..109] == p.terminatorReserved
  {
    var b := Encode(p);
    Layout(p);
    InfoTlvRoundTrip(p.actorType, p.actorLength, p.actorInfo, p.actorReserved, b, 1);
    InfoTlvRoundTrip(p.partnerType, p.partnerLength, p.partnerInfo, p.partnerReserved, b, 21);
    TailRoundTrip(p, b);
    InfoReads(b, 3);
    InfoReads(b, 23);
    TailReads(b, 43);
    Image(p, b);
  }

  /** What a controller sends is what its partner reads: version 1, and the types and lengths of the
      four parts, 1 and 20, 2 and 20, 3 and 16, 0 and 0. */
  lemma SentIsRead(actor: ParticipantInfo, partner: ParticipantInfo, rest: seq<Byte>)
    ensures Decode(Encode(PduFor(actor, partner)) + rest) == Some(PduFor(actor, partner))
    ensures var b := Encode(PduFor(actor, partner));
            && |b| == 109 && InfoLaidOut(b, 3, actor) && InfoLaidOut(b, 23, partner)
            && b[0] == 1 && b[1] == 1 && b[2] == 20 && b[21] == 2 && b[22] == 20
            && b[41] == 3 && b[42] == 16 && b[43] == b[44] == 0 && b[57] == b[58] == 0
  {
    RoundTrip(PduFor(actor, partner), rest);
    EncodesByOffset(PduFor(actor, partner));
  }

  lemma TailBack(p: Pdu, b: seq<Byte>)
    requires p.WellFormed() && |b| >= PDU_LENGTH
    requires b[41] == p.collectorType && b[42] == p.collectorLength && U16At(b, 43) == p.maxDelay
    requires b[57] == p.terminatorType && b[58] == p.terminatorLength
    ensures CollectorTlv(p) == b[41..57] <==> b[45..57] == p.collectorReserved
    ensures TerminatorTlv(p) == b[57..109] <==> b[59..109] == p.terminatorReserved
  {
    assert b[41..57] == [b[41], b[42], b[43], b[44]] + b[45..57];
    assert CollectorTlv(p)[4..] == p.collectorReserved && b[41..57][4..] == b[45..57];
    assert b[57..109] == [b[57], b[58]] + b[59..109];
    assert TerminatorTlv(p)[2..] == p.terminatorReserved && b[57..109][2..] == b[59..109];
  }

  /** Two PDU images are equal when their five parts are. */
  lemma SameParts(b: seq<Byte>, c: seq<Byte>)
    requires |b| == |c| == PDU_LENGTH
    ensures b == c <==>
            && b[0] == c[0] && b[1..21] == c[1..21] && b[21..41] == c[21..41]
            && b[41..57] == c[41..57] && b[57..109] == c[57..109]
  {
    assert b == [b[0]] + b[1..21] + b[21..41] + b[41..57] + b[57..109];
    assert c == [c[0]] + c[1..21] + c[21..41] + c[41..57] + c[57..109];
  }

  lemma Image(p: Pdu, b: seq<Byte>)
    requires p.WellFormed() && |b| == PDU_LENGTH && b[0] == p.version
    requires InfoTlvAt(b, 1, p.actorType, p.actorLength, p.actorInfo)
    requires InfoTlvAt(b, 21, p.partnerType, p.partnerLength, p.partnerInfo)
    requires b[41] == p.collectorType && b[42] == p.collectorLength && U16At(b, 43) == p.maxDelay
    requires b[57] == p.terminatorType && b[58] == p.terminatorLength
    ensures Encode(p) == b <==>
            && b[18..21] == p.actorReserved && b[38..41] == p.partnerReserved
            && b[45..57] == p.collectorReserved && b[59..109] == p.terminatorReserved
  {
    Layout(p);
    InfoTlvBack(b, 1, p.actorReserved);
    InfoTlvBack(b, 21, p.partnerReserved);
    TailBack(p, b);
    SameParts(Encode(p), b);
  }

  lemma DecodePrefix(b: seq<Byte>)
    requires |b| >= PDU_LENGTH
    ensures Decode(b[..PDU_LENGTH]) == Decode(b)
    ensures SkippedAreZero(b[..PDU_LENGTH]) == SkippedAreZero(b)
  {
    var c := b[..PDU_LENGTH];
    assert c[5..11] == b[5..11] && c[25..31] == b[25..31];
    assert c[18..21] == b[18..21] && c[38..41] == b[38..41] && c[45..57] == b[45..57] && c[59..109] == b[59..109];
  }

  lemma PduBack(b: seq<Byte>)
    requires |b| == PDU_LENGTH
    ensures Encode(Decode(b).value) == b <==> SkippedAreZero(b)
  {
    Image(Decode(b).value, b);
  }

  /** Bytes come back from a decode exactly when the skipped ones are zero. */
  lemma BytesBack(b: seq<Byte>)
    requires |b| >= PDU_LENGTH
    ensures Decode(b).Some? && Decode(b).value.WellFormed() && Decode(b).value.ZeroReserved()
    ensures Encode(Decode(b).value) == b[..PDU_LENGTH] <==> SkippedAreZero(b)
  {
    DecodePrefix(b);
    PduBack(b[..PDU_LENGTH]);
  }

  lemma AppendParts(o: seq<Byte>, a: seq<Byte>, b: seq<Byte>, c: seq<Byte>, d: seq<Byte>, e: seq<Byte>)
    ensures o + a + b + c + d + e == o + (a + b + c + d + e)
  {
  }

  /** The fixed buffer of a packet and the position in it, as the cursors keep them. */
  class Writer {
    const buf: array<Byte>
    var pos: nat

    constructor (buf: array<Byte>)
      ensures this.buf == buf && pos == 0
    {
      this.buf := buf;
      pos := 0;
    }

    /** Nothing from `at` on was written. */
    twostate predicate RestSame(at: nat)
      reads this, buf
    {
      forall i | at <= i < buf.Length :: buf[i] == old(buf[i])
    }

    method Push(bytes: seq<Byte>)
      requires pos + |bytes| <= buf.Length
      modifies this, buf
      ensures pos == old(pos) + |bytes|
      ensures buf[..pos] == old(buf[..pos]) + bytes
      ensures RestSame(pos)
    {
      var i := 0;
      while i < |bytes|
        invariant 0 <= i <= |bytes| && pos == old(pos) + i
        invariant buf[..pos] == old(buf[..pos]) + bytes[..i]
        invariant RestSame(pos)
      {
        buf[pos] := bytes[i];
        pos := pos + 1;
        i := i + 1;
      }
    }

    method WriteInfo(info: ParticipantInfo)
      requires pos + INFO_LENGTH <= buf.Length
      modifies this, buf
      ensures pos == old(pos) + INFO_LENGTH
      ensures buf[..pos] == old(buf[..pos]) + InfoBytes(info)
      ensures RestSame(pos)
    {
      Push(Big(info.systemPriority));
      Push(info.systemID);
      Push(Big(info.key));
      Push(Big(info.portPriority));
      Push(Big(info.port));
      Push([StateByte(info.state)]);
    }

    method WriteInfoTlv(kind: Byte, length: Byte, info: ParticipantInfo, reserved: seq<Byte>)
      requires |reserved| == 3 && pos + 20 <= buf.Length
      modifies this, buf
      ensures pos == old(pos) + 20
      ensures buf[..pos] == old(buf[..pos]) + InfoTlv(kind, length, info, reserved)
      ensures RestSame(pos)
    {
      Push([kind]);
      Push([length]);
      WriteInfo(info);
      Push(reserved);
    }

    /** The collector and terminator parts. */
    method WriteTail(p: Pdu)
      requires p.WellFormed() && pos + 68 <= buf.Length
      modifies this, buf
      ensures pos == old(pos) + 68
      ensures buf[..pos] == old(buf[..pos]) + CollectorTlv(p) + TerminatorTlv(p)
      ensures RestSame(pos)
    {
      Push([p.collectorType]);
      Push([p.collectorLength]);
      Push(Big(p.maxDelay));
      Push(p.collectorReserved);
      assert buf[..pos] == old(buf[..pos]) + CollectorTlv(p);
      Push([p.terminatorType]);
      Push([p.terminatorLength]);
      Push(p.terminatorReserved);
    }

    /** `LACPDU::to`. */
    method WritePdu(p: Pdu)
      requires p.WellFormed() && pos + PDU_LENGTH <= buf.Length
      modifies this, buf
      ensures pos == old(pos) + PDU_LENGTH
      ensures buf[..pos] == old(buf[..pos]) + Encode(p)
      ensures RestSame(pos)
    {
      AppendParts(buf[..pos], [p.version],
                  InfoTlv(p.actorType, p.actorLength, p.actorInfo, p.actorReserved),
                  InfoTlv(p.partnerType, p.partnerLength, p.partnerInfo, p.partnerReserved),
                  CollectorTlv(p), TerminatorTlv(p));
      Push([p.version]);
      WriteInfoTlv(p.actorType, p.actorLength, p.actorInfo, p.actorReserved);
      WriteInfoTlv(p.partnerType, p.partnerLength, p.partnerInfo, p.partnerReserved);
      WriteTail(p);
    }
  }

  /** The 802.1Q header and the subtype byte in front of the PDU. */
  function FrameHeader(dst: SystemID, src: SystemID, vlan: U16): (b: seq<Byte>)
    ensures |b| == 19
  {
    dst + src + Big(0x8100) + Big(vlan) + Big(0x8809) + [1]
  }

  /** Destination, source, VLAN tag, the slow-protocols type and the LACP subtype. */
  lemma HeaderBytes(dst: SystemID, src: SystemID, vlan: U16, rest: seq<Byte>)
    ensures var frame := FrameHeader(dst, src, vlan) + rest;
            && |frame| == 19 + |rest| && frame[..6] == dst && frame[6..12] == src
            && frame[12] == 0x81 && frame[13] == 0x00 && BigEndian(frame, 14, vlan)
            && frame[16] == 0x88 && frame[17] == 0x09 && frame[18] == 1 && frame[19..] == rest
  {
  }

  method WriteFrame(p: Pdu, dst: SystemID, src: SystemID, vlan: U16) returns (frame: seq<Byte>)
    requires p.WellFormed()
    ensures frame == FrameHeader(dst, src, vlan) + Encode(p)
  {
    var buf := new Byte[FRAME_LENGTH];
    var writer := new Writer(buf);
    writer.Push(dst);
    writer.Push(src);
    writer.Push(Big(0x8100));
    writer.Push(Big(vlan));
    writer.Push(Big(0x8809));
    writer.Push([1]);
    assert buf[..19] == FrameHeader(dst, src, vlan);
    writer.WritePdu(p);
    frame := buf[..];
    assert frame == buf[..writer.pos];
  }

  /** The frame `transmit` hands over: header and PDU fill its 128 bytes exactly. */
  method BuildFrame(p: Pdu, dst: SystemID, src: SystemID, vlan: U16) returns (frame: seq<Byte>)
    requires p.WellFormed()
    ensures |frame| == 128 && frame[..6] == dst && frame[6..12] == src
    ensures frame[12] == 0x81 && frame[13] == 0x00 && BigEndian(frame, 14, vlan)
    ensures frame[16] == 0x88 && frame[17] == 0x09 && frame[18] == 1 && frame[19..] == Encode(p)
    ensures p.ZeroReserved() ==> Decode(frame[19..]) == Some(p)
  {
    frame := WriteFrame(p, dst, src, vlan);
    EncodesByOffset(p);
    HeaderBytes(dst, src, vlan, Encode(p));
    assert Encode(p) == Encode(p) + [];
    RoundTrip(p, []);
  }

  class Reader {
    const data: seq<Byte>
    var pos: nat

    constructor (data: seq<Byte>)
      ensures this.data == data && pos == 0
    {
      this.data := data;
      pos := 0;
    }

    ghost predicate Has(n: nat)
      reads this
    {
      pos + n <= |data|
    }

    method ReadByte() returns (r: Option<Byte>)
      modifies this
      ensures r == if old(Has(1)) then Some(data[old(pos)]) else None
      ensures r.Some? ==> pos == old(pos) + 1
    {
      if pos >= |data| { return None; }
      r := Some(data[pos]);
      pos := pos + 1;
    }

    method ReadU16() returns (r: Option<U16>)
      modifies this
      ensures r == if old(Has(2)) then Some(U16At(data, old(pos))) else None
      ensures r.Some? ==> pos == old(pos) + 2
    {
      if pos + 2 > |data| { return None; }
      r := Some(U16At(data, pos));
      pos := pos + 2;
    }

    method Pull() returns (r: Option<SystemID>)
      modifies this
      ensures r.Some? <==> old(Has(6))
      ensures r.Some? ==> r.value == data[old(pos)..old(pos) + 6] && pos == old(pos) + 6
    {
      if pos + 6 > |data| { return None; }
      r := Some(data[pos..pos + 6]);
      pos := pos + 6;
    }

    method Skip(n: nat) returns (r: Option<()>)
      modifies this
      ensures r == if old(Has(n)) then Some(()) else None
      ensures r.Some? ==> pos == old(pos) + n
    {
      if pos + n > |data| { return None; }
      pos := pos + n;
      return Some(());
    }

    method ReadInfo() returns (r: Option<ParticipantInfo>)
      modifies this
      ensures r == if old(Has(INFO_LENGTH)) then Some(InfoAt(data, old(pos))) else None
      ensures r.Some? ==> pos == old(pos) + INFO_LENGTH
    {
      var systemPriority :- ReadU16();
      var systemID :- Pull();
      var key :- ReadU16();
      var portPriority :- ReadU16();
      var port :- ReadU16();
      var state :- ReadByte();
      return Some(ParticipantInfo(systemPriority, systemID, key, portPriority, port, StateOf(state)));
    }

    method ReadInfoTlv() returns (r: Option<(Byte, Byte, ParticipantInfo)>)
      modifies this
      ensures r.Some? <==> old(Has(20))
      ensures r.Some? ==> pos == old(pos) + 20 && InfoTlvAt(data, old(pos), r.value.0, r.value.1, r.value.2)
    {
      var kind :- ReadByte();
      var length :- ReadByte();
      var info :- ReadInfo();
      var _ :- Skip(3);
      return Some((kind, length, info));
    }

    method ReadTail() returns (r: Option<(Byte, Byte, U16, Byte, Byte)>)
      modifies this
      ensures r == if old(Has(68)) then
                     Some((data[old(pos)], data[old(pos) + 1], U16At(data, old(pos) + 2),
                            data[old(pos) + 16], data[old(pos) + 17]))
                   else None
      ensures r.Some? ==> pos == old(pos) + 68
    {
      var collectorType :- ReadByte();
      var collectorLength :- ReadByte();
      var maxDelay :- ReadU16();
      var _ :- Skip(12);
      var terminatorType :- ReadByte();
      var terminatorLength :- ReadByte();
      var _ :- Skip(50);
      return Some((collectorType, collectorLength, maxDelay, terminatorType, terminatorLength));
    }

    /** `LACPDU::from`: running off the end of the packet raises an error. */
    method ReadPdu() returns (r: Option<Pdu>)
      requires pos <= |data|
      modifies this
      ensures r == Decode(data[old(pos)..])
      ensures r.Some? ==> pos == old(pos) + PDU_LENGTH
    {
      var version :- ReadByte();
      var actor :- ReadInfoTlv();
      var partner :- ReadInfoTlv();
      var tail :- ReadTail();
      InfoShift(data, old(pos), 3);
      InfoShift(data, old(pos), 23);
      return Some(Pdu(version, actor.0, actor.1, actor.2, Zeros(3), partner.0, partner.1, partner.2, Zeros(3),
                      tail.0, tail.1, tail.2, Zeros(12), tail.3, tail.4, Zeros(50)));
    }
  }

  lemma InfoShift(b: seq<Byte>, from: nat, at: nat)
    requires from + at + INFO_LENGTH <= |b|
    ensures InfoAt(b[from..], at) == InfoAt(b, from + at)
  {
    assert b[from..][at + 2..at + 8] == b[from + at + 2..from + at + 8];
  }
}
