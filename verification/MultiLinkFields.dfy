/**
 The named fields of the Multi-Link element, written one by one in the order of section 9.4.2.312 of
 IEEE P802.11be/D4.0 under the control bits that announce them, and read back.
 */
module MultiLinkFields {
  import opened Outcomes
  import opened MultiLink
  import opened MultiLinkLaws

  /** A bit of a control word, by the word below it and the word above. */
  lemma BitAt(k: nat, p: nat, below: nat, bit: nat, above: nat)
    requires p == Pow2(k) && below < p && bit < 2
    ensures HasBit(below + p * bit + 2 * p * above, k) <==> bit == 1
  {
    var word := below + p * bit + 2 * p * above;
    var high := bit + 2 * above;
    assert word == below + high * p by {
      assert p * bit + 2 * p * above == p * (bit + 2 * above);
    }
    Divides(word, high, below, p);
  }

  lemma Divides(n: nat, q: nat, r: nat, p: nat)
    requires n == r + q * p && r < p
    ensures n / p == q
  {
    assert n == (n / p) * p + n % p;
    if n / p < q {
      Monotone(n / p + 1, q, p);
    } else if n / p > q {
      Monotone(q + 1, n / p, p);
    }
  }

  lemma Monotone(m: nat, n: nat, p: nat)
    requires m <= n
    ensures m * p <= n * p
  {
  }

  function Bit(present: bool): nat {
    if present then 1 else 0
  }

  /** The powers of two that the control words are made of. */
  lemma Powers()
    ensures Pow2(4) == 16 && Pow2(5) == 32 && Pow2(6) == 64 && Pow2(7) == 128
    ensures Pow2(8) == 256 && Pow2(9) == 512 && Pow2(10) == 1024 && Pow2(11) == 2048
  {
    assert Pow2(1) == 2 * Pow2(0) && Pow2(2) == 2 * Pow2(1) && Pow2(3) == 2 * Pow2(2) && Pow2(4) == 2 * Pow2(3);
    assert Pow2(5) == 2 * Pow2(4) && Pow2(6) == 2 * Pow2(5) && Pow2(7) == 2 * Pow2(6) && Pow2(8) == 2 * Pow2(7);
  }

  // ---------------------------------------------------------------- Common Info

  datatype CommonInfo = CommonInfo(
    mac: seq<byte>, linkId: Option<seq<byte>>, changeCount: Option<seq<byte>>, mediumSyncDelay: Option<seq<byte>>,
    emlCapabilities: Option<seq<byte>>, mldCapabilities: Option<seq<byte>>, apMldId: Option<seq<byte>>,
    extendedMldCapabilities: Option<seq<byte>>)

  predicate Octets(field: Option<seq<byte>>, n: nat) {
    field.Some? ==> |field.value| == n
  }

  predicate CommonFine(c: CommonInfo) {
    && |c.mac| == 6 && Octets(c.linkId, 1) && Octets(c.changeCount, 1) && Octets(c.mediumSyncDelay, 2)
    && Octets(c.emlCapabilities, 2) && Octets(c.mldCapabilities, 2) && Octets(c.apMldId, 1) && Octets(c.extendedMldCapabilities, 2)
  }

  /** The control word of a basic element: its type is 0, and what stands in the reserved bits does not matter. */
  function CommonControl(c: CommonInfo, reserved: nat, high: nat): nat
    requires reserved < 2 && high < 32
  {
    8 * reserved + 16 * Bit(c.linkId.Some?) + 32 * Bit(c.changeCount.Some?) + 64 * Bit(c.mediumSyncDelay.Some?)
    + 128 * Bit(c.emlCapabilities.Some?) + 256 * Bit(c.mldCapabilities.Some?) + 512 * Bit(c.apMldId.Some?)
    + 1024 * Bit(c.extendedMldCapabilities.Some?) + 2048 * high
  }

  function Written(field: Option<seq<byte>>): seq<byte> {
    if field.Some? then field.value else []
  }

  function CommonBytes(c: CommonInfo): seq<byte> {
    c.mac + Written(c.linkId) + Written(c.changeCount) + Written(c.mediumSyncDelay) + Written(c.emlCapabilities)
    + Written(c.mldCapabilities) + Written(c.apMldId) + Written(c.extendedMldCapabilities)
  }

  /** What the parser reports, by name. */
  function CommonOfFields(fields: seq<Option<seq<byte>>>): Option<CommonInfo> {
    if |fields| == 8 && fields[0].Some?
    then Some(CommonInfo(fields[0].value, fields[1], fields[2], fields[3], fields[4], fields[5], fields[6], fields[7]))
    else None
  }

  function CommonFields(c: CommonInfo): seq<Option<seq<byte>>> {
    [Some(c.mac), c.linkId, c.changeCount, c.mediumSyncDelay, c.emlCapabilities, c.mldCapabilities, c.apMldId,
     c.extendedMldCapabilities]
  }

  lemma CommonBits(c: CommonInfo, reserved: nat, high: nat)
    requires reserved < 2 && high < 32
    ensures var w := CommonControl(c, reserved, high);
      && w < 65536 && w % 8 == 0
      && (HasBit(w, 4) <==> c.linkId.Some?) && (HasBit(w, 5) <==> c.changeCount.Some?)
      && (HasBit(w, 6) <==> c.mediumSyncDelay.Some?) && (HasBit(w, 7) <==> c.emlCapabilities.Some?)
      && (HasBit(w, 8) <==> c.mldCapabilities.Some?) && (HasBit(w, 9) <==> c.apMldId.Some?)
      && (HasBit(w, 10) <==> c.extendedMldCapabilities.Some?)
  {
    hide HasBit, Pow2;
    Powers();
    var b4, b5, b6, b7 := Bit(c.linkId.Some?), Bit(c.changeCount.Some?), Bit(c.mediumSyncDelay.Some?), Bit(c.emlCapabilities.Some?);
    var b8, b9, b10 := Bit(c.mldCapabilities.Some?), Bit(c.apMldId.Some?), Bit(c.extendedMldCapabilities.Some?);
    SevenBits(8 * reserved, b4, b5, b6, b7, b8, b9, b10, high);
  }

  /** Bits 4 to 10 of a word. */
  lemma SevenBits(low: nat, b4: nat, b5: nat, b6: nat, b7: nat, b8: nat, b9: nat, b10: nat, high: nat)
    requires low < 16 && b4 < 2 && b5 < 2 && b6 < 2 && b7 < 2 && b8 < 2 && b9 < 2 && b10 < 2
    ensures var w := low + 16 * b4 + 32 * b5 + 64 * b6 + 128 * b7 + 256 * b8 + 512 * b9 + 1024 * b10 + 2048 * high;
      && (HasBit(w, 4) <==> b4 == 1) && (HasBit(w, 5) <==> b5 == 1) && (HasBit(w, 6) <==> b6 == 1)
      && (HasBit(w, 7) <==> b7 == 1) && (HasBit(w, 8) <==> b8 == 1) && (HasBit(w, 9) <==> b9 == 1)
      && (HasBit(w, 10) <==> b10 == 1)
  {
    hide HasBit, Pow2;
    Powers();
    BitAt(4, 16, low, b4, b5 + 2 * b6 + 4 * b7 + 8 * b8 + 16 * b9 + 32 * b10 + 64 * high);
    BitAt(5, 32, low + 16 * b4, b5, b6 + 2 * b7 + 4 * b8 + 8 * b9 + 16 * b10 + 32 * high);
    BitAt(6, 64, low + 16 * b4 + 32 * b5, b6, b7 + 2 * b8 + 4 * b9 + 8 * b10 + 16 * high);
    BitAt(7, 128, low + 16 * b4 + 32 * b5 + 64 * b6, b7, b8 + 2 * b9 + 4 * b10 + 8 * high);
    BitAt(8, 256, low + 16 * b4 + 32 * b5 + 64 * b6 + 128 * b7, b8, b9 + 2 * b10 + 4 * high);
    BitAt(9, 512, low + 16 * b4 + 32 * b5 + 64 * b6 + 128 * b7 + 256 * b8, b9, b10 + 2 * high);
    BitAt(10, 1024, low + 16 * b4 + 32 * b5 + 64 * b6 + 128 * b7 + 256 * b8 + 512 * b9, b10, high);
  }

  lemma CommonFits(c: CommonInfo, reserved: nat, high: nat)
    requires reserved < 2 && high < 32 && CommonFine(c)
    ensures Fits(CommonFields(c), CommonSlots(CommonControl(c, reserved, high)))
  {
    CommonBits(c, reserved, high);
    hide HasBit, CommonControl;
  }

  /** The fields one behind the other. */
  lemma CommonWritten(c: CommonInfo)
    ensures FieldBytes(CommonFields(c)) == CommonBytes(c)
  {
    var f := CommonFields(c);
    assert f[..8] == f;
    FieldBytesSnoc(f, 7);
    FieldBytesSnoc(f, 6);
    FieldBytesSnoc(f, 5);
    FieldBytesSnoc(f, 4);
    FieldBytesSnoc(f, 3);
    FieldBytesSnoc(f, 2);
    FieldBytesSnoc(f, 1);
    FieldBytesSnoc(f, 0);
    hide FieldBytes;
    assert [] + c.mac == c.mac;
  }

  lemma FieldBytesSnoc(fields: seq<Option<seq<byte>>>, n: nat)
    requires n < |fields|
    ensures FieldBytes(fields[..n + 1]) == FieldBytes(fields[..n]) + Written(fields[n])
    ensures n == 0 ==> FieldBytes(fields[..n]) == []
  {
    assert fields[..n + 1][..n] == fields[..n];
  }

  /** An element as a sender lays it out: the control word, the length of Common Info, Common Info and the subelements. */
  function Laid(control: nat, info: seq<byte>, fs: seq<Frame>): seq<byte>
    requires control < 65536 && |info| < 255
  {
    [control % 256, control / 256] + [1 + |info|] + info + EncodeAll(fs)
  }

  lemma LaidOut(control: nat, info: seq<byte>, fs: seq<Frame>)
    requires control < 65536 && |info| < 255 && AllWhole(fs)
    ensures var bytes := Laid(control, info, fs);
      && bytes == [control % 256, control / 256, 1 + |info|] + info + EncodeAll(fs)
      && U16(bytes, 0) == control && bytes[2] == 1 + |info| && CommonEnd(bytes) == 3 + |info| <= |bytes|
      && Frames(bytes[CommonEnd(bytes)..]) == Framed(fs, false)
  {
    hide Frames;
    var bytes := Laid(control, info, fs);
    assert bytes == Built(control, [1 + |info|] + info, fs);
    SubelementsRoundTrip(control, [1 + |info|] + info, fs);
  }

  lemma LaidFields(control: nat, fields: seq<Option<seq<byte>>>, fs: seq<Frame>)
    requires control < 65536 && control % 8 == BASIC && |FieldBytes(fields)| < 255 && AllWhole(fs)
    requires Fits(fields, CommonSlots(control))
    ensures var info := FieldBytes(fields); var bytes := Laid(control, info, fs);
      CommonOf(bytes) == Some(Common(1 + |info|, fields)) && !CommonTruncated(bytes)
  {
    hide Frames, HasBit, Fits, CommonSlots, FieldBytes, ReadSlots, Lacks, Span, Laid, EncodeAll;
    var info := FieldBytes(fields);
    var bytes, slots := Laid(control, info, fs), CommonSlots(control);
    LaidOut(control, info, fs);
    FieldSpan(fields, slots);
    FieldsRoundTrip([control % 256, control / 256, 1 + |info|], fields, EncodeAll(fs), slots, 3 + |info|);
    LacksExactly(bytes, slots, 3, 3 + |info|);
  }

  /**
   Common Info is read back: an element written with any of its named fields, each under its control
   bit and in order, and with any subelements behind, parses to a basic element with exactly these
   fields and subelements, and is not called truncated.
   */
  lemma CommonInfoRoundTrip(c: CommonInfo, reserved: nat, high: nat, fs: seq<Frame>)
    requires reserved < 2 && high < 32 && CommonFine(c) && AllWhole(fs)
    ensures |CommonBytes(c)| < 255
    ensures CommonControl(c, reserved, high) < 65536 && CommonControl(c, reserved, high) % 8 == BASIC
    ensures var bytes := Laid(CommonControl(c, reserved, high), CommonBytes(c), fs);
      && U16(bytes, 0) == CommonControl(c, reserved, high)
      && CommonOf(bytes).Some? && CommonOfFields(CommonOf(bytes).value.fields) == Some(c)
      && !CommonTruncated(bytes)
      && Frames(bytes[CommonEnd(bytes)..]) == Framed(fs, false)
  {
    CommonLength(c);
    CommonBits(c, reserved, high);
    CommonFits(c, reserved, high);
    CommonWritten(c);
    NamedBack(c);
    hide Frames, HasBit, Fits, CommonControl, CommonSlots, CommonFields, CommonBytes, FieldBytes, CommonFine, Laid, CommonOf, CommonTruncated, CommonEnd;
    LaidOut(CommonControl(c, reserved, high), CommonBytes(c), fs);
    LaidFields(CommonControl(c, reserved, high), CommonFields(c), fs);
  }

  lemma NamedBack(c: CommonInfo)
    ensures CommonOfFields(CommonFields(c)) == Some(c)
  {
  }

  lemma CommonLength(c: CommonInfo)
    requires CommonFine(c)
    ensures |CommonBytes(c)| < 255
  {
  }

  // ---------------------------------------------------------------- STA Info

  /** `wide`: a link pair bitmap takes two octets. */
  datatype StaInfo = StaInfo(
    linkId: nat, complete: bool, mac: Option<seq<byte>>, beaconInterval: Option<seq<byte>>, tsfOffset: Option<seq<byte>>,
    dtim: Option<(byte, byte)>, linkPairs: Option<seq<byte>>, wide: bool, changeCount: Option<seq<byte>>)

  predicate StaFine(s: StaInfo) {
    && s.linkId < 16 && Octets(s.mac, 6) && Octets(s.beaconInterval, 2) && Octets(s.tsfOffset, 8)
    && Octets(s.linkPairs, if s.wide then 2 else 1) && Octets(s.changeCount, 1)
  }

  function StaControl(s: StaInfo, high: nat): nat
    requires s.linkId < 16 && high < 16
  {
    s.linkId + 16 * Bit(s.complete) + 32 * Bit(s.mac.Some?) + 64 * Bit(s.beaconInterval.Some?) + 128 * Bit(s.tsfOffset.Some?)
    + 256 * Bit(s.dtim.Some?) + 512 * Bit(s.linkPairs.Some?) + 1024 * Bit(s.wide) + 2048 * Bit(s.changeCount.Some?) + 4096 * high
  }

  function StaBytes(s: StaInfo): seq<byte> {
    Written(s.mac) + Written(s.beaconInterval) + Written(s.tsfOffset)
    + (if s.dtim.Some? then [s.dtim.value.0, s.dtim.value.1] else [])
    + Written(s.linkPairs) + Written(s.changeCount)
  }

  function StaFields(s: StaInfo): seq<Option<seq<byte>>> {
    [s.mac, s.beaconInterval, s.tsfOffset, if s.dtim.Some? then Some([s.dtim.value.0]) else None,
     if s.dtim.Some? then Some([s.dtim.value.1]) else None, s.linkPairs, s.changeCount]
  }

  /** What the parser reports of a profile, by name. */
  function StaOfProfile(p: Profile): Option<StaInfo> {
    if |p.fields| == 7 then
      var count, period := p.fields[3], p.fields[4];
      Some(StaInfo(
        p.linkId, p.complete, p.fields[0], p.fields[1], p.fields[2],
        if count.Some? && |count.value| == 1 && period.Some? && |period.value| == 1 then Some((count.value[0], period.value[0])) else None,
        p.fields[5], HasBit(p.control, 10), p.fields[6]))
    else None
  }

  lemma LowBits(w: nat, low: nat, above: nat)
    requires low < 16 && w == low + 16 * above
    ensures w % 16 == low
  {
  }

  /** Bits 4 to 11 of a word, and what is below. */
  lemma EightBits(low: nat, b4: nat, b5: nat, b6: nat, b7: nat, b8: nat, b9: nat, b10: nat, b11: nat, high: nat)
    requires low < 16 && b4 < 2 && b5 < 2 && b6 < 2 && b7 < 2 && b8 < 2 && b9 < 2 && b10 < 2 && b11 < 2
    ensures
      var w := low + 16 * b4 + 32 * b5 + 64 * b6 + 128 * b7 + 256 * b8 + 512 * b9 + 1024 * b10 + 2048 * b11 + 4096 * high;
      && w % 16 == low
      && (HasBit(w, 4) <==> b4 == 1) && (HasBit(w, 5) <==> b5 == 1) && (HasBit(w, 6) <==> b6 == 1)
      && (HasBit(w, 7) <==> b7 == 1) && (HasBit(w, 8) <==> b8 == 1) && (HasBit(w, 9) <==> b9 == 1)
      && (HasBit(w, 10) <==> b10 == 1) && (HasBit(w, 11) <==> b11 == 1)
  {
    hide HasBit, Pow2;
    Powers();
    var w := low + 16 * b4 + 32 * b5 + 64 * b6 + 128 * b7 + 256 * b8 + 512 * b9 + 1024 * b10 + 2048 * b11 + 4096 * high;
    LowBits(w, low, b4 + 2 * b5 + 4 * b6 + 8 * b7 + 16 * b8 + 32 * b9 + 64 * b10 + 128 * b11 + 256 * high);
    SevenBits(low, b4, b5, b6, b7, b8, b9, b10, b11 + 2 * high);
    assert w == low + 16 * b4 + 32 * b5 + 64 * b6 + 128 * b7 + 256 * b8 + 512 * b9 + 1024 * b10 + 2048 * (b11 + 2 * high);
    BitAt(11, 2048, low + 16 * b4 + 32 * b5 + 64 * b6 + 128 * b7 + 256 * b8 + 512 * b9 + 1024 * b10, b11, high);
  }

  lemma StaBits(s: StaInfo, high: nat)
    requires s.linkId < 16 && high < 16
    ensures var w := StaControl(s, high);
      && w < 65536 && w % 16 == s.linkId
      && (HasBit(w, 4) <==> s.complete) && (HasBit(w, 5) <==> s.mac.Some?)
      && (HasBit(w, 6) <==> s.beaconInterval.Some?) && (HasBit(w, 7) <==> s.tsfOffset.Some?)
      && (HasBit(w, 8) <==> s.dtim.Some?) && (HasBit(w, 9) <==> s.linkPairs.Some?)
      && (HasBit(w, 10) <==> s.wide) && (HasBit(w, 11) <==> s.changeCount.Some?)
  {
    hide HasBit, Pow2;
    EightBits(s.linkId, Bit(s.complete), Bit(s.mac.Some?), Bit(s.beaconInterval.Some?), Bit(s.tsfOffset.Some?),
              Bit(s.dtim.Some?), Bit(s.linkPairs.Some?), Bit(s.wide), Bit(s.changeCount.Some?), high);
  }

  lemma StaFits(s: StaInfo, high: nat)
    requires high < 16 && StaFine(s)
    ensures Fits(StaFields(s), StaSlots(StaControl(s, high)))
  {
    StaBits(s, high);
    hide HasBit, StaControl;
  }

  lemma SevenFields(f: seq<Option<seq<byte>>>)
    requires |f| == 7
    ensures FieldBytes(f) ==
      Written(f[0]) + Written(f[1]) + Written(f[2]) + Written(f[3]) + Written(f[4]) + Written(f[5]) + Written(f[6])
  {
    assert f[..7] == f;
    FieldBytesSnoc(f, 6);
    FieldBytesSnoc(f, 5);
    FieldBytesSnoc(f, 4);
    FieldBytesSnoc(f, 3);
    FieldBytesSnoc(f, 2);
    FieldBytesSnoc(f, 1);
    FieldBytesSnoc(f, 0);
    hide FieldBytes, Written;
    assert [] + Written(f[0]) == Written(f[0]);
  }

  lemma TwoOctets(before: seq<byte>, x: byte, y: byte)
    ensures before + [x] + [y] == before + [x, y] && before + [] + [] == before + []
  {
  }

  lemma StaWritten(s: StaInfo)
    ensures FieldBytes(StaFields(s)) == StaBytes(s)
  {
    hide FieldBytes;
    SevenFields(StaFields(s));
    if s.dtim.Some? {
      TwoOctets(Written(s.mac) + Written(s.beaconInterval) + Written(s.tsfOffset), s.dtim.value.0, s.dtim.value.1);
    } else {
      TwoOctets(Written(s.mac) + Written(s.beaconInterval) + Written(s.tsfOffset), 0, 0);
    }
  }

  lemma ProfileHead(data: seq<byte>)
    requires |data| >= 3
    ensures var p := ProfileOf(data, false); p.Some? && p.value.linkId == p.value.control % 16 && p.value.complete == HasBit(p.value.control, 4)
  {
    hide Frames, HasBit, ReadSlots, Lacks, AsElements;
  }

  lemma StaNamedBack(s: StaInfo, p: Profile)
    requires p.fields == StaFields(s) && p.linkId == s.linkId && p.complete == s.complete && HasBit(p.control, 10) == s.wide
    ensures StaOfProfile(p) == Some(s)
  {
    hide HasBit;
  }

  /** A profile as a sender lays it out. */
  function ProfileLaid(control: nat, info: seq<byte>, fs: seq<Frame>): (data: seq<byte>)
    requires control < 65536 && |info| < 255
    ensures |data| >= 3
  {
    [control % 256, control / 256, 1 + |info|] + info + EncodeAll(fs)
  }

  lemma ProfileLaidFields(control: nat, fields: seq<Option<seq<byte>>>, fs: seq<Frame>)
    requires control < 65536 && Fits(fields, StaSlots(control)) && AllWhole(fs)
    ensures |FieldBytes(fields)| < 255
    ensures var p := ProfileOf(ProfileLaid(control, FieldBytes(fields), fs), false);
      && p.Some? && p.value.control == control && p.value.fields == fields && !p.value.truncated
      && p.value.elements == AsElements(fs) && !p.value.elementsTruncated
  {
    hide Frames, HasBit, Fits, StaSlots, FieldBytes, EncodeAll, AsElements, ProfileOf;
    ProfileRoundTrip(control, fields, fs);
  }

  /**
   STA Info is read back: a profile written with any of its named fields, each under its control bit
   and in order, and with any elements behind, parses to exactly these fields and elements, and is
   not called truncated.
   */
  lemma StaInfoRoundTrip(s: StaInfo, high: nat, fs: seq<Frame>)
    requires high < 16 && StaFine(s) && AllWhole(fs)
    ensures |StaBytes(s)| < 255 && StaControl(s, high) < 65536
    ensures var p := ProfileOf(ProfileLaid(StaControl(s, high), StaBytes(s), fs), false);
      && p.Some? && p.value.control == StaControl(s, high) && StaOfProfile(p.value) == Some(s) && !p.value.truncated
      && p.value.elements == AsElements(fs) && !p.value.elementsTruncated
  {
    StaBits(s, high);
    StaFits(s, high);
    StaWritten(s);
    assert s.linkId < 16;
    hide HasBit, Fits, StaControl, StaSlots, StaBytes, FieldBytes, StaFine, AsElements, ProfileOf, StaFields, StaOfProfile, ProfileLaid, AllWhole;
    ProfileLaidFields(StaControl(s, high), StaFields(s), fs);
    var data := ProfileLaid(StaControl(s, high), StaBytes(s), fs);
    ProfileHead(data);
    StaNamedBack(s, ProfileOf(data, false).value);
  }

  // ---------------------------------------------------------------- what is whole

  /** The octets of Common Info that a control word announces, its length octet apart. */
  function CommonAnnounced(control: nat): nat {
    if control % 8 != BASIC then 0
    else
      6 + Bit(HasBit(control, 4)) + Bit(HasBit(control, 5)) + 2 * Bit(HasBit(control, 6)) + 2 * Bit(HasBit(control, 7))
      + 2 * Bit(HasBit(control, 8)) + Bit(HasBit(control, 9)) + 2 * Bit(HasBit(control, 10))
  }

  /** The octets of STA Info that a control word announces. */
  function StaAnnounced(control: nat): nat {
    6 * Bit(HasBit(control, 5)) + 2 * Bit(HasBit(control, 6)) + 8 * Bit(HasBit(control, 7)) + 2 * Bit(HasBit(control, 8))
    + (if HasBit(control, 9) then if HasBit(control, 10) then 2 else 1 else 0) + Bit(HasBit(control, 11))
  }

  function Size(s: Slot): nat {
    if s.present then s.size else 0
  }

  lemma {:induction false} SpanSnoc(slots: seq<Slot>, n: nat)
    requires n < |slots|
    ensures Span(slots[..n + 1]) == Span(slots[..n]) + Size(slots[n])
  {
    assert slots[..n + 1][..n] == slots[..n];
  }

  lemma SevenSizes(slots: seq<Slot>)
    requires |slots| >= 7
    ensures Span(slots[..7]) ==
      Size(slots[0]) + Size(slots[1]) + Size(slots[2]) + Size(slots[3]) + Size(slots[4]) + Size(slots[5]) + Size(slots[6])
  {
    assert Span(slots[..0]) == 0;
    hide Span, Size;
    SpanSnoc(slots, 0);
    SpanSnoc(slots, 1);
    SpanSnoc(slots, 2);
    SpanSnoc(slots, 3);
    SpanSnoc(slots, 4);
    SpanSnoc(slots, 5);
    SpanSnoc(slots, 6);
  }

  lemma CommonSpan(control: nat)
    requires control % 8 == BASIC
    ensures Span(CommonSlots(control)) == CommonAnnounced(control)
  {
    hide HasBit, Span;
    var slots := CommonSlots(control);
    SevenSizes(slots);
    SpanSnoc(slots, 7);
    assert slots[..8] == slots;
  }

  lemma StaSpanIs(control: nat)
    ensures Span(StaSlots(control)) == StaAnnounced(control)
  {
    hide HasBit, Span;
    var slots := StaSlots(control);
    SevenSizes(slots);
    assert slots[..7] == slots;
  }

  /**
   An element is whole in exactly this case: it is nothing but its control word; or the length octet of
   Common Info counts itself and all that is announced, reaches no further than the data, and is
   followed by whole subelements.
   */
  lemma ElementWholeExactly(bytes: seq<byte>)
    requires |bytes| >= 2
    ensures var framed := Frames(bytes[CommonEnd(bytes)..]);
      !(CommonTruncated(bytes) || framed.truncated) <==>
        || |bytes| == 2
        || (1 + CommonAnnounced(U16(bytes, 0)) <= bytes[2] <= |bytes| - 2
            && exists fs :: AllWhole(fs) && EncodeAll(fs) == bytes[2 + bytes[2]..])
  {
    hide Frames, CommonSlots, CommonAnnounced, HasBit, Lacks, Span, EncodeAll, AllWhole;
    var control := U16(bytes, 0);
    TruncatedExactly(bytes[CommonEnd(bytes)..]);
    if |bytes| == 2 {
      NothingLeft(bytes[2..]);
    } else if control % 8 == BASIC {
      CommonSpan(control);
      LacksExactly(bytes, CommonSlots(control), 3, CommonEnd(bytes));
    } else {
      assert CommonAnnounced(control) == 0 by { NotBasic(control); }
    }
  }

  lemma NotBasic(control: nat)
    requires control % 8 != BASIC
    ensures CommonAnnounced(control) == 0
  {
  }

  /** The same for STA Info of a profile, whose elements have a flag of their own. */
  lemma ProfileWholeExactly(data: seq<byte>, already: bool)
    requires |data| >= 3
    ensures var p := ProfileOf(data, already);
      && p.Some?
      && (!p.value.truncated <==> !already && 1 + StaAnnounced(U16(data, 0)) <= data[2] <= |data| - 2)
      && (!p.value.truncated ==> p.value.body == data[2 + data[2]..])
      && (!p.value.elementsTruncated <==> exists fs :: AllWhole(fs) && EncodeAll(fs) == p.value.body)
  {
    hide Frames, StaSlots, StaAnnounced, HasBit, Lacks, Span, EncodeAll, AllWhole, AsElements, ReadSlots;
    var control := U16(data, 0);
    StaSpanIs(control);
    LacksExactly(data, StaSlots(control), 3, InfoEnd(data));
    TruncatedExactly(data[InfoEnd(data)..]);
  }

  /** An element of a profile with id 255 names itself by the first octet of its data; no other element does, nor does an empty one. */
  lemma ElementNames(id: byte, data: seq<byte>)
    requires |data| <= 255
    ensures var bytes := [id, |data|] + data;
      !Frames(bytes).truncated
      && AsElements(Frames(bytes).frames) == [ProfileElement(id, if id == 255 && data != [] then Some(data[0]) else None, |data|, data)]
  {
    var f := Frame(id, |data|, data);
    assert EncodeAll([f]) == Encode(f) + EncodeAll([]) == [id, |data|] + data;
    hide Frames, EncodeAll;
    FramesOfEncoded([f]);
  }
}
