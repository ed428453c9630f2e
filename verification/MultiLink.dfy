/**
 The EHT Multi-Link element (render/eht_multi_link.go), section 9.4.2.312 of IEEE P802.11be/D4.0:
 framing of subelements and profile elements, reassembly of fragments, and the fields of Common
 Info and STA Info whose presence the control bits announce.
 */
module MultiLink {
  import opened Outcomes

  type byte = x: int | 0 <= x < 256

  // ---------------------------------------------------------------- framing

  /** What one pass over id, length and data finds; the data is shorter than declared at the end of the input. */
  datatype Frame = Frame(id: byte, declared: byte, data: seq<byte>)

  datatype Framed = Framed(frames: seq<Frame>, truncated: bool)

  predicate Whole(f: Frame) {
    |f.data| == f.declared
  }

  predicate AllWhole(fs: seq<Frame>) {
    forall f :: f in fs ==> Whole(f)
  }

  function Encode(f: Frame): seq<byte> {
    [f.id, f.declared] + f.data
  }

  function EncodeAll(fs: seq<Frame>): seq<byte> {
    if fs == [] then [] else Encode(fs[0]) + EncodeAll(fs[1..])
  }

  function FirstFrame(bytes: seq<byte>): (f: Frame)
    requires |bytes| >= 2
    ensures 2 + |f.data| <= |bytes|
  {
    var end := if 2 + bytes[1] <= |bytes| then 2 + bytes[1] else |bytes|;
    Frame(bytes[0], bytes[1], bytes[2..end])
  }

  function Frames(bytes: seq<byte>): Framed {
    if bytes == [] then Framed([], false)
    else if |bytes| < 2 then Framed([], true)
    else
      var f := FirstFrame(bytes);
      if !Whole(f) then Framed([f], true)
      else
        var rest := Frames(bytes[2 + |f.data|..]);
        Framed([f] + rest.frames, rest.truncated)
  }

  lemma FramesStep(bytes: seq<byte>, offset: nat, done: seq<Frame>)
    requires offset + 2 <= |bytes|
    ensures
      var f := FirstFrame(bytes[offset..]);
      && f == Frame(bytes[offset], bytes[offset + 1],
                    bytes[offset + 2..if offset + 2 + bytes[offset + 1] <= |bytes| then offset + 2 + bytes[offset + 1] else |bytes|])
      && done + Frames(bytes[offset..]).frames ==
           done + [f] + (if Whole(f) then Frames(bytes[offset + 2 + |f.data|..]).frames else [])
      && Frames(bytes[offset..]).truncated == (if Whole(f) then Frames(bytes[offset + 2 + |f.data|..]).truncated else true)
  {
    var rest := bytes[offset..];
    var f := FirstFrame(rest);
    assert rest[2 + |f.data|..] == bytes[offset + 2 + |f.data|..];
  }

  /** The subelements that follow Common Info. */
  method ParseSubelements(bytes: seq<byte>, start: nat) returns (raws: seq<Frame>, truncated: bool)
    requires start <= |bytes|
    ensures Framed(raws, truncated) == Frames(bytes[start..])
  {
    hide FirstFrame, Frames;
    raws, truncated := [], false;
    var offset := start;
    assert [] + Frames(bytes[start..]).frames == Frames(bytes[start..]).frames;
    while offset < |bytes|
      invariant start <= offset <= |bytes| && !truncated
      invariant raws + Frames(bytes[offset..]).frames == Frames(bytes[start..]).frames
      invariant Frames(bytes[offset..]).truncated == Frames(bytes[start..]).truncated
    {
      if offset + 2 > |bytes| {
        OneByteLeft(bytes[offset..]);
        return raws, true;
      }
      FramesStep(bytes, offset, raws);
      var end := if offset + 2 + bytes[offset + 1] <= |bytes| then offset + 2 + bytes[offset + 1] else |bytes|;
      var raw := Frame(bytes[offset], bytes[offset + 1], bytes[offset + 2..end]);
      raws := raws + [raw];
      if |raw.data| != raw.declared {
        return raws, true;
      }
      offset := end;
    }
    NothingLeft(bytes[offset..]);
  }

  lemma OneByteLeft(bytes: seq<byte>)
    requires |bytes| == 1
    ensures Frames(bytes) == Framed([], true)
  {
  }

  lemma NothingLeft(bytes: seq<byte>)
    requires bytes == []
    ensures Frames(bytes) == Framed([], false)
  {
  }

  const EXTENSION: byte := 255

  /** A profile element: a frame whose data begins with an extension id when its id says so. */
  datatype ProfileElement = ProfileElement(id: byte, extension: Option<byte>, declared: byte, body: seq<byte>)

  function AsElement(f: Frame): ProfileElement {
    ProfileElement(f.id, if f.id == EXTENSION && f.data != [] then Some(f.data[0]) else None, f.declared, f.data)
  }

  function AsElements(fs: seq<Frame>): seq<ProfileElement> {
    seq(|fs|, i requires 0 <= i < |fs| => AsElement(fs[i]))
  }

  lemma ElementsSnoc(fs: seq<Frame>, f: Frame)
    ensures AsElements(fs + [f]) == AsElements(fs) + [AsElement(f)]
  {
  }

  lemma NoElements()
    ensures AsElements([]) == []
  {
  }

  /** The next element of a profile, and where the one behind it begins. */
  method NextElement(data: seq<byte>, offset: nat) returns (element: ProfileElement, end: nat)
    requires offset + 2 <= |data|
    ensures element == AsElement(FirstFrame(data[offset..])) && end == offset + 2 + |element.body| <= |data|
  {
    var id, declared := data[offset], data[offset + 1];
    end := if offset + 2 + declared <= |data| then offset + 2 + declared else |data|;
    var body := data[offset + 2..end];
    assert data[offset..][2..end - offset] == body;
    assert FirstFrame(data[offset..]) == Frame(id, declared, body);
    var extension: Option<byte> := None;
    if id == EXTENSION && |body| > 0 {
      extension := Some(body[0]);
    }
    element := ProfileElement(id, extension, declared, body);
  }

  method ParseProfileElements(data: seq<byte>) returns (elements: seq<ProfileElement>, truncated: bool)
    ensures elements == AsElements(Frames(data).frames) && truncated == Frames(data).truncated
  {
    hide FirstFrame, Frames, AsElements;
    elements, truncated := [], false;
    NoElements();
    var offset: nat := 0;
    ghost var frames: seq<Frame> := [];
    assert data[0..] == data;
    assert [] + Frames(data).frames == Frames(data).frames;
    while offset < |data|
      invariant offset <= |data| && !truncated && elements == AsElements(frames)
      invariant frames + Frames(data[offset..]).frames == Frames(data).frames
      invariant Frames(data[offset..]).truncated == Frames(data).truncated
    {
      if offset + 2 > |data| {
        OneByteLeft(data[offset..]);
        assert frames + [] == frames;
        return elements, true;
      }
      FramesStep(data, offset, frames);
      ghost var frame := FirstFrame(data[offset..]);
      ElementsSnoc(frames, frame);
      var element, end := NextElement(data, offset);
      elements := elements + [element];
      frames := frames + [frame];
      if |element.body| != element.declared {
        assert frames + [] == frames;
        return elements, true;
      }
      offset := end;
    }
    NothingLeft(data[offset..]);
    assert frames + [] == frames;
  }

  lemma FirstOfEncoded(f: Frame, rest: seq<byte>)
    requires Whole(f)
    ensures var bytes := Encode(f) + rest;
      |bytes| >= 2 && FirstFrame(bytes) == f && bytes[2 + |f.data|..] == rest
  {
    var bytes := Encode(f) + rest;
    assert bytes[2..2 + f.declared] == f.data;
  }

  /** Parsing an encoded list gives the list back. */
  lemma {:induction false} FramesOfEncoded(fs: seq<Frame>)
    requires AllWhole(fs)
    ensures Frames(EncodeAll(fs)) == Framed(fs, false)
  {
    hide FirstFrame, Encode, Whole;
    if fs != [] {
      var f, rest := fs[0], fs[1..];
      assert f in fs && forall g :: g in rest ==> g in fs;
      FramesOfEncoded(rest);
      FirstOfEncoded(f, EncodeAll(rest));
    }
  }

  lemma WholeCons(f: Frame, rest: seq<Frame>)
    requires Whole(f)
    ensures AllWhole([f] + rest) <==> AllWhole(rest)
  {
    if AllWhole([f] + rest) {
      forall g | g in rest
        ensures Whole(g)
      {
        assert g in [f] + rest;
      }
    }
  }

  /** Frames and a rest of at most one byte account for an input; only the last frame may be cut short. */
  predicate AccountsFor(r: Framed, left: seq<byte>, bytes: seq<byte>) {
    && EncodeAll(r.frames) + left == bytes && |left| <= 1
    && (r.truncated <==> left != [] || !AllWhole(r.frames))
    && (forall i :: 0 <= i < |r.frames| - 1 ==> Whole(r.frames[i]))
  }

  lemma AccountsCons(f: Frame, r: Framed, left: seq<byte>, rest: seq<byte>)
    requires Whole(f) && AccountsFor(r, left, rest)
    ensures AccountsFor(Framed([f] + r.frames, r.truncated), left, Encode(f) + rest)
  {
    hide Encode, AllWhole;
    var all := [f] + r.frames;
    assert all[1..] == r.frames;
    assert Encode(f) + EncodeAll(r.frames) + left == Encode(f) + (EncodeAll(r.frames) + left);
    WholeCons(f, r.frames);
  }

  lemma AccountsCut(f: Frame)
    requires !Whole(f)
    ensures AccountsFor(Framed([f], true), [], Encode(f))
  {
    assert [f][1..] == [];
    assert f in [f];
    assert EncodeAll([f]) + [] == Encode(f);
  }

  lemma FirstReencodes(bytes: seq<byte>)
    requires |bytes| >= 2
    ensures var f := FirstFrame(bytes);
      Encode(f) + bytes[2 + |f.data|..] == bytes && (!Whole(f) ==> bytes[2 + |f.data|..] == [])
  {
  }

  /** Whatever the input, no byte is lost: the frames encode to all of it, but for a lone last byte. */
  lemma {:induction false} EncodedFrames(bytes: seq<byte>) returns (left: seq<byte>)
    ensures AccountsFor(Frames(bytes), left, bytes)
  {
    if bytes == [] {
      left := [];
    } else if |bytes| < 2 {
      left := bytes;
    } else {
      hide AccountsFor, Encode, FirstFrame, Whole;
      var f := FirstFrame(bytes);
      FirstReencodes(bytes);
      if Whole(f) {
        left := EncodedFrames(bytes[2 + |f.data|..]);
        AccountsCons(f, Frames(bytes[2 + |f.data|..]), left, bytes[2 + |f.data|..]);
      } else {
        left := [];
        AccountsCut(f);
        assert Encode(f) + [] == Encode(f);
      }
    }
  }

  /** An input is called truncated exactly when it is not the encoding of any list of whole frames. */
  lemma TruncatedExactly(bytes: seq<byte>)
    ensures !Frames(bytes).truncated <==> exists fs :: AllWhole(fs) && EncodeAll(fs) == bytes
  {
    var left := EncodedFrames(bytes);
    if !Frames(bytes).truncated {
      assert EncodeAll(Frames(bytes).frames) == bytes;
    }
    if fs :| AllWhole(fs) && EncodeAll(fs) == bytes {
      FramesOfEncoded(fs);
    }
  }

  // ---------------------------------------------------------------- fragments

  const PER_STA_PROFILE: byte := 0
  const LEGACY_FRAGMENT: byte := 1
  const FRAGMENT: byte := 254

  predicate IsFragment(id: byte) {
    id == FRAGMENT || id == LEGACY_FRAGMENT
  }

  /** The last subelement before i that is no fragment. */
  function Anchor(fs: seq<Frame>, i: nat): Option<nat>
    requires i <= |fs|
  {
    if i == 0 then None else if !IsFragment(fs[i - 1].id) then Some(i - 1) else Anchor(fs, i - 1)
  }

  /** The data of the fragments before n that belong to subelement a. */
  function Pieces(fs: seq<Frame>, a: nat, n: nat): seq<seq<byte>>
    requires n <= |fs|
  {
    if n == 0 then []
    else Pieces(fs, a, n - 1) + if IsFragment(fs[n - 1].id) && Anchor(fs, n - 1) == Some(a) then [fs[n - 1].data] else []
  }

  function Concat(pieces: seq<seq<byte>>): seq<byte> {
    if pieces == [] then [] else Concat(pieces[..|pieces| - 1]) + pieces[|pieces| - 1]
  }

  function Reassembled(fs: seq<Frame>, i: nat): seq<byte>
    requires i < |fs|
  {
    fs[i].data + Concat(Pieces(fs, i, |fs|))
  }

  /** `target`: for a fragment, the id of the subelement it continues, if there is one. */
  datatype Subelement = Subelement(
    id: byte, declared: byte, actual: nat, profile: Option<Profile>, target: Option<Option<byte>>,
    fragmentCount: nat, reassembledLength: Option<nat>, truncated: bool)

  function TargetId(fs: seq<Frame>, i: nat): Option<byte>
    requires i < |fs|
  {
    var a := Anchor(fs, i);
    if a.Some? && a.value < |fs| then Some(fs[a.value].id) else None
  }

  function SubelementAt(fs: seq<Frame>, i: nat): Subelement
    requires i < |fs|
  {
    var f := fs[i];
    var count := |Pieces(fs, i, |fs|)|;
    Subelement(
      f.id, f.declared, |f.data|,
      if f.id == PER_STA_PROFILE then ProfileOf(Reassembled(fs, i), !Whole(f)) else None,
      if IsFragment(f.id) then Some(TargetId(fs, i)) else None,
      count, if count > 0 then Some(|Reassembled(fs, i)|) else None, !Whole(f))
  }

  lemma {:induction false} AnchorBelow(fs: seq<Frame>, i: nat)
    requires i <= |fs|
    ensures Anchor(fs, i).Some? ==>
      var a := Anchor(fs, i).value;
      a < i && !IsFragment(fs[a].id) && forall j :: a < j < i ==> IsFragment(fs[j].id)
    ensures Anchor(fs, i).None? ==> forall j :: 0 <= j < i ==> IsFragment(fs[j].id)
  {
    if i > 0 && IsFragment(fs[i - 1].id) {
      AnchorBelow(fs, i - 1);
    }
  }

  function Held(fragments: map<nat, seq<seq<byte>>>, a: nat): seq<seq<byte>> {
    if a in fragments then fragments[a] else []
  }

  /** Every subelement holds the fragments before n that belong to it; one without an entry holds none. */
  ghost predicate HandedOut(fs: seq<Frame>, fragments: map<nat, seq<seq<byte>>>, n: nat)
    requires n <= |fs|
  {
    forall a: nat :: Held(fragments, a) == Pieces(fs, a, n)
  }

  lemma HandOut(fs: seq<Frame>, fragments: map<nat, seq<seq<byte>>>, n: nat)
    requires n < |fs| && HandedOut(fs, fragments, n)
    ensures
      var a := Anchor(fs, n);
      HandedOut(fs, if IsFragment(fs[n].id) && a.Some? then fragments[a.value := Held(fragments, a.value) + [fs[n].data]] else fragments, n + 1)
  {
    hide IsFragment, Anchor;
    var anchor := Anchor(fs, n);
    var after := if IsFragment(fs[n].id) && anchor.Some? then fragments[anchor.value := Held(fragments, anchor.value) + [fs[n].data]] else fragments;
    forall a: nat
      ensures Held(after, a) == Pieces(fs, a, n + 1)
    {
      assert Held(fragments, a) == Pieces(fs, a, n);
    }
  }

  /** First pass: every fragment goes to its anchor, if there is one before it. */
  method HandOutFragments(fs: seq<Frame>) returns (fragments: map<nat, seq<seq<byte>>>, targets: map<nat, Option<nat>>)
    ensures HandedOut(fs, fragments, |fs|)
    ensures forall j: nat :: j in targets <==> j < |fs| && IsFragment(fs[j].id)
    ensures forall j: nat :: j in targets ==> targets[j] == Anchor(fs, j)
  {
    hide HandedOut;
    fragments, targets := map[], map[];
    var anchor: Option<nat> := None;
    NothingHandedOut(fs);
    for index := 0 to |fs|
      invariant anchor == Anchor(fs, index)
      invariant HandedOut(fs, fragments, index)
      invariant forall j: nat :: j in targets <==> j < index && IsFragment(fs[j].id)
      invariant forall j: nat :: j in targets ==> targets[j] == Anchor(fs, j)
    {
      HandOut(fs, fragments, index);
      if IsFragment(fs[index].id) {
        targets := targets[index := anchor];
        if anchor.Some? {
          fragments := fragments[anchor.value := Held(fragments, anchor.value) + [fs[index].data]];
        }
        continue;
      }
      anchor := Some(index);
    }
  }

  lemma NothingHandedOut(fs: seq<Frame>)
    ensures HandedOut(fs, map[], 0)
  {
  }

  /** Second pass: the subelements are put together. */
  method Reassemble(fs: seq<Frame>) returns (subelements: seq<Subelement>)
    ensures |subelements| == |fs| && forall i :: 0 <= i < |fs| ==> subelements[i] == SubelementAt(fs, i)
  {
    hide ProfileOf, Reassembled, SubelementAt, Pieces, Concat;
    var fragments, targets := HandOutFragments(fs);
    subelements := [];
    for index := 0 to |fs|
      invariant |subelements| == index && forall i :: 0 <= i < index ==> subelements[i] == SubelementAt(fs, i)
    {
      var raw := fs[index];
      var mine := Held(fragments, index);
      assert mine == Pieces(fs, index, |fs|);
      var reassembled := JoinPieces(raw.data, mine);
      var profile: Option<Profile> := None;
      if raw.id == PER_STA_PROFILE {
        profile := ParseProfile(reassembled, |raw.data| != raw.declared);
      }
      var target: Option<Option<byte>> := None;
      if IsFragment(raw.id) {
        AnchorBelow(fs, index);
        var a := targets[index];
        target := Some(if a.Some? then Some(fs[a.value].id) else None);
      }
      SubelementIs(fs, index, reassembled);
      subelements := subelements + [Subelement(
        raw.id, raw.declared, |raw.data|, profile, target, |mine|,
        if |mine| > 0 then Some(|reassembled|) else None, |raw.data| != raw.declared)];
    }
  }

  lemma SubelementIs(fs: seq<Frame>, i: nat, reassembled: seq<byte>)
    requires i < |fs| && reassembled == fs[i].data + Concat(Pieces(fs, i, |fs|))
    ensures var f := fs[i]; var count := |Pieces(fs, i, |fs|)|;
      SubelementAt(fs, i) == Subelement(
        f.id, f.declared, |f.data|,
        if f.id == PER_STA_PROFILE then ProfileOf(reassembled, !Whole(f)) else None,
        if IsFragment(f.id) then Some(TargetId(fs, i)) else None,
        count, if count > 0 then Some(|reassembled|) else None, !Whole(f))
  {
    hide ProfileOf;
  }

  method JoinPieces(first: seq<byte>, pieces: seq<seq<byte>>) returns (all: seq<byte>)
    ensures all == first + Concat(pieces)
  {
    all := first;
    for i := 0 to |pieces|
      invariant all == first + Concat(pieces[..i])
    {
      assert pieces[..i + 1][..i] == pieces[..i];
      all := all + pieces[i];
    }
    assert pieces[..|pieces|] == pieces;
  }

  // ---------------------------------------------------------------- fields

  predicate HasBit(control: nat, bit: nat) {
    (control / Pow2(bit)) % 2 == 1
  }

  function Pow2(n: nat): (p: nat)
    ensures p >= 1
  {
    if n == 0 then 1 else 2 * Pow2(n - 1)
  }

  function U16(data: seq<byte>, offset: nat): nat
    requires offset + 2 <= |data|
  {
    var low: nat, high: nat := data[offset], data[offset + 1];
    low + 256 * high
  }

  /** A field whose control bit says whether it is there. */
  datatype Slot = Slot(present: bool, size: nat)

  function Span(slots: seq<Slot>): nat {
    if slots == [] then 0 else Span(slots[..|slots| - 1]) + if slots[|slots| - 1].present then slots[|slots| - 1].size else 0
  }

  function ReadSlot(data: seq<byte>, s: Slot, offset: nat, limit: nat): Option<seq<byte>> {
    if s.present && offset + s.size <= limit && offset + s.size <= |data| then Some(data[offset..offset + s.size]) else None
  }

  function ReadSlots(data: seq<byte>, slots: seq<Slot>, start: nat, limit: nat): seq<Option<seq<byte>>> {
    if slots == [] then []
    else
      var n := |slots| - 1;
      ReadSlots(data, slots[..n], start, limit) + [ReadSlot(data, slots[n], start + Span(slots[..n]), limit)]
  }

  /** A field that is announced cannot be read. */
  predicate Lacks(data: seq<byte>, slots: seq<Slot>, start: nat, limit: nat) {
    if slots == [] then false
    else
      var n := |slots| - 1;
      Lacks(data, slots[..n], start, limit)
      || (slots[n].present && ReadSlot(data, slots[n], start + Span(slots[..n]), limit).None?)
  }

  method TakeField(data: seq<byte>, s: Slot, offset: nat, limit: nat, truncated: bool)
    returns (value: Option<seq<byte>>, next: nat, lacking: bool)
    ensures value == ReadSlot(data, s, offset, limit)
    ensures next == offset + if s.present then s.size else 0
    ensures lacking <==> truncated || (s.present && value.None?)
  {
    value, next, lacking := None, offset, truncated;
    if s.present {
      if offset + s.size > limit || offset + s.size > |data| {
        lacking := true;
      } else {
        value := Some(data[offset..offset + s.size]);
      }
      next := offset + s.size;
    }
  }

  predicate Sized(slots: seq<Slot>) {
    forall i :: 0 <= i < |slots| ==> slots[i].size >= 1
  }

  /** Fields cannot all be read exactly when together they reach past the end that was declared, or past the data. */
  lemma {:induction false} LacksExactly(data: seq<byte>, slots: seq<Slot>, start: nat, limit: nat)
    requires Sized(slots)
    ensures Lacks(data, slots, start, limit) <==> Span(slots) > 0 && (start + Span(slots) > limit || start + Span(slots) > |data|)
  {
    if slots != [] {
      LacksExactly(data, slots[..|slots| - 1], start, limit);
    }
  }

  /** The bytes of the fields that are there. */
  function FieldBytes(fields: seq<Option<seq<byte>>>): seq<byte> {
    if fields == [] then []
    else FieldBytes(fields[..|fields| - 1]) + if fields[|fields| - 1].Some? then fields[|fields| - 1].value else []
  }

  predicate Fits(fields: seq<Option<seq<byte>>>, slots: seq<Slot>) {
    && |fields| == |slots|
    && forall i :: 0 <= i < |slots| ==> if slots[i].present then fields[i].Some? && |fields[i].value| == slots[i].size else fields[i].None?
  }

  lemma {:induction false} FieldSpan(fields: seq<Option<seq<byte>>>, slots: seq<Slot>)
    requires Fits(fields, slots)
    ensures |FieldBytes(fields)| == Span(slots)
  {
    if slots != [] {
      FieldSpan(fields[..|fields| - 1], slots[..|slots| - 1]);
    }
  }

  lemma LastField(data: seq<byte>, before: seq<byte>, field: Option<seq<byte>>, after: seq<byte>, s: Slot, limit: nat)
    requires if s.present then field.Some? && |field.value| == s.size else field.None?
    requires data == before + (if field.Some? then field.value else []) + after
    requires s.present ==> |before| + s.size <= limit
    ensures ReadSlot(data, s, |before|, limit) == field
  {
  }

  lemma Regroup(a: seq<byte>, b: seq<byte>, c: seq<byte>, d: seq<byte>)
    ensures a + (b + c) + d == a + b + c + d == a + b + (c + d)
  {
  }

  /** Reading what was written gives every field back, wherever it stands and whatever follows. */
  lemma {:induction false} FieldsRoundTrip(
      before: seq<byte>, fields: seq<Option<seq<byte>>>, after: seq<byte>, slots: seq<Slot>, limit: nat)
    requires Fits(fields, slots) && |before| + Span(slots) <= limit
    ensures ReadSlots(before + FieldBytes(fields) + after, slots, |before|, limit) == fields
  {
    hide ReadSlot;
    if slots == [] {
      assert fields == [];
    } else {
      var n := |slots| - 1;
      var front, last := fields[..n], fields[n];
      var mine := if last.Some? then last.value else [];
      hide Fits;
      FieldSpan(front, slots[..n]);
      var data := before + FieldBytes(fields) + after;
      Regroup(before, FieldBytes(front), mine, after);
      FieldsRoundTrip(before, front, mine + after, slots[..n], limit);
      LastField(data, before + FieldBytes(front), last, after, slots[n], limit);
      assert fields == front + [last];
    }
  }

  // ---------------------------------------------------------------- Common Info

  /** The MLD MAC address is always there. */
  function CommonSlots(control: nat): (slots: seq<Slot>)
    ensures |slots| == 8 && Sized(slots)
  {
    [Slot(true, 6), Slot(HasBit(control, 4), 1), Slot(HasBit(control, 5), 1), Slot(HasBit(control, 6), 2),
     Slot(HasBit(control, 7), 2), Slot(HasBit(control, 8), 2), Slot(HasBit(control, 9), 1), Slot(HasBit(control, 10), 2)]
  }

  /** `data` read so far: the first n fields, the offset behind them and whether one of them was lacking. */
  predicate ReadTo(data: seq<byte>, slots: seq<Slot>, start: nat, limit: nat, fields: seq<Option<seq<byte>>>, offset: nat, truncated: bool) {
    && |fields| <= |slots|
    && fields == ReadSlots(data, slots[..|fields|], start, limit)
    && offset == start + Span(slots[..|fields|])
    && (truncated <==> Lacks(data, slots[..|fields|], start, limit))
  }

  lemma ReadOne(data: seq<byte>, slots: seq<Slot>, start: nat, limit: nat, fields: seq<Option<seq<byte>>>, offset: nat, truncated: bool,
                value: Option<seq<byte>>, next: nat, lacking: bool)
    requires |fields| < |slots| && ReadTo(data, slots, start, limit, fields, offset, truncated)
    requires value == ReadSlot(data, slots[|fields|], offset, limit)
    requires next == offset + if slots[|fields|].present then slots[|fields|].size else 0
    requires lacking <==> truncated || (slots[|fields|].present && value.None?)
    ensures ReadTo(data, slots, start, limit, fields + [value], next, lacking)
  {
    var n := |fields|;
    assert slots[..n + 1][..n] == slots[..n];
  }

  /** The next field in turn. */
  method NextField(data: seq<byte>, slots: seq<Slot>, start: nat, limit: nat, fields: seq<Option<seq<byte>>>, offset: nat, truncated: bool)
    returns (more: seq<Option<seq<byte>>>, next: nat, lacking: bool)
    requires |fields| < |slots| && ReadTo(data, slots, start, limit, fields, offset, truncated)
    ensures |more| == |fields| + 1 && ReadTo(data, slots, start, limit, more, next, lacking)
  {
    hide ReadTo, ReadSlot;
    var value: Option<seq<byte>>;
    value, next, lacking := TakeField(data, slots[|fields|], offset, limit, truncated);
    ReadOne(data, slots, start, limit, fields, offset, truncated, value, next, lacking);
    more := fields + [value];
  }

  lemma ReadNone(data: seq<byte>, slots: seq<Slot>, start: nat, limit: nat)
    ensures ReadTo(data, slots, start, limit, [], start, false)
  {
  }

  lemma ReadAll(data: seq<byte>, slots: seq<Slot>, start: nat, limit: nat, fields: seq<Option<seq<byte>>>, offset: nat, truncated: bool)
    requires |fields| == |slots| && ReadTo(data, slots, start, limit, fields, offset, truncated)
    ensures fields == ReadSlots(data, slots, start, limit) && (truncated <==> Lacks(data, slots, start, limit))
  {
    assert slots[..|slots|] == slots;
  }

  /** MAC address, link id, change count, medium synchronisation delay, EML and MLD capabilities, AP MLD id, extended capabilities. */
  method ParseCommonInfo(bytes: seq<byte>, start: nat, end: nat, control: nat) returns (fields: seq<Option<seq<byte>>>, truncated: bool)
    ensures fields == ReadSlots(bytes, CommonSlots(control), start + 1, end)
    ensures truncated <==> Lacks(bytes, CommonSlots(control), start + 1, end)
  {
    hide ReadTo, ReadSlots, Lacks;
    var slots := CommonSlots(control);
    var offset: nat := start + 1;
    fields, truncated := [], false;
    ReadNone(bytes, slots, offset, end);
    fields, offset, truncated := NextField(bytes, slots, start + 1, end, fields, offset, truncated);
    fields, offset, truncated := NextField(bytes, slots, start + 1, end, fields, offset, truncated);
    fields, offset, truncated := NextField(bytes, slots, start + 1, end, fields, offset, truncated);
    fields, offset, truncated := NextField(bytes, slots, start + 1, end, fields, offset, truncated);
    fields, offset, truncated := NextField(bytes, slots, start + 1, end, fields, offset, truncated);
    fields, offset, truncated := NextField(bytes, slots, start + 1, end, fields, offset, truncated);
    fields, offset, truncated := NextField(bytes, slots, start + 1, end, fields, offset, truncated);
    fields, offset, truncated := NextField(bytes, slots, start + 1, end, fields, offset, truncated);
    ReadAll(bytes, slots, start + 1, end, fields, offset, truncated);
  }

  // ---------------------------------------------------------------- Per-STA profiles

  /** MAC address, beacon interval, TSF offset, DTIM count and period, NSTR link pairs, change count. */
  function StaSlots(control: nat): (slots: seq<Slot>)
    ensures |slots| == 7 && Sized(slots)
  {
    [Slot(HasBit(control, 5), 6), Slot(HasBit(control, 6), 2), Slot(HasBit(control, 7), 8), Slot(HasBit(control, 8), 1),
     Slot(HasBit(control, 8), 1), Slot(HasBit(control, 9), if HasBit(control, 10) then 2 else 1), Slot(HasBit(control, 11), 1)]
  }

  datatype Profile = Profile(
    control: nat, linkId: nat, complete: bool, infoLength: byte, fields: seq<Option<seq<byte>>>,
    body: seq<byte>, elements: seq<ProfileElement>, elementsTruncated: bool, truncated: bool)

  /** Where STA Info ends: its length octet counts itself. */
  function InfoEnd(data: seq<byte>): nat
    requires |data| >= 3
  {
    if 2 + data[2] <= |data| then 2 + data[2] else |data|
  }

  function ProfileOf(data: seq<byte>, already: bool): Option<Profile> {
    if |data| < 3 then None
    else
      var control, end := U16(data, 0), InfoEnd(data);
      var framed := Frames(data[end..]);
      Some(Profile(control, control % 16, HasBit(control, 4), data[2], ReadSlots(data, StaSlots(control), 3, end),
                   data[end..], AsElements(framed.frames), framed.truncated,
                   already || data[2] == 0 || 2 + data[2] > |data| || Lacks(data, StaSlots(control), 3, end)))
  }

  method ParseStaInfo(data: seq<byte>, end: nat, control: nat) returns (fields: seq<Option<seq<byte>>>, lacking: bool)
    ensures fields == ReadSlots(data, StaSlots(control), 3, end)
    ensures lacking <==> Lacks(data, StaSlots(control), 3, end)
  {
    hide ReadTo, ReadSlots, Lacks;
    var slots := StaSlots(control);
    var offset: nat := 3;
    fields, lacking := [], false;
    ReadNone(data, slots, offset, end);
    fields, offset, lacking := NextField(data, slots, 3, end, fields, offset, lacking);
    fields, offset, lacking := NextField(data, slots, 3, end, fields, offset, lacking);
    fields, offset, lacking := NextField(data, slots, 3, end, fields, offset, lacking);
    fields, offset, lacking := NextField(data, slots, 3, end, fields, offset, lacking);
    fields, offset, lacking := NextField(data, slots, 3, end, fields, offset, lacking);
    fields, offset, lacking := NextField(data, slots, 3, end, fields, offset, lacking);
    fields, offset, lacking := NextField(data, slots, 3, end, fields, offset, lacking);
    ReadAll(data, slots, 3, end, fields, offset, lacking);
  }

  method ParseProfile(data: seq<byte>, already: bool) returns (profile: Option<Profile>)
    ensures profile == ProfileOf(data, already)
  {
    hide ReadSlots, Lacks, StaSlots, Frames, AsElements, HasBit;
    if |data| < 3 {
      return None;
    }
    var control := U16(data, 0);
    var infoLength := data[2];
    var end := if 2 + infoLength <= |data| then 2 + infoLength else |data|;
    var truncated := already || infoLength == 0 || 2 + infoLength > |data|;
    var fields, lacking := ParseStaInfo(data, end, control);
    var elements, elementsTruncated := ParseProfileElements(data[end..]);
    profile := Some(Profile(control, control % 16, HasBit(control, 4), infoLength, fields, data[end..], elements, elementsTruncated,
                            truncated || lacking));
  }

  // ---------------------------------------------------------------- the element

  datatype Common = Common(length: byte, fields: seq<Option<seq<byte>>>)

  datatype Element = Element(
    control: nat, kind: nat, common: Option<Common>, subelements: seq<Subelement>, rawByteCount: int, truncated: bool)

  const BASIC := 0

  /** Where Common Info ends and the subelements begin. */
  function CommonEnd(bytes: seq<byte>): nat
    requires |bytes| >= 2
  {
    if |bytes| == 2 then 2 else if 2 + bytes[2] <= |bytes| then 2 + bytes[2] else |bytes|
  }

  predicate CommonTruncated(bytes: seq<byte>)
    requires |bytes| >= 2
  {
    |bytes| > 2 && (bytes[2] == 0 || 2 + bytes[2] > |bytes|
                    || (U16(bytes, 0) % 8 == BASIC && Lacks(bytes, CommonSlots(U16(bytes, 0)), 3, CommonEnd(bytes))))
  }

  function CommonOf(bytes: seq<byte>): Option<Common>
    requires |bytes| >= 2
  {
    if |bytes| == 2 then None
    else if U16(bytes, 0) % 8 == BASIC then Some(Common(bytes[2], ReadSlots(bytes, CommonSlots(U16(bytes, 0)), 3, CommonEnd(bytes))))
    else Some(Common(bytes[2], []))
  }

  method ParseElement(bytes: seq<byte>, fallback: int) returns (element: Option<Element>)
    ensures element.Some? <==> |bytes| >= 2
    ensures element.Some? ==>
      var e, framed := element.value, Frames(bytes[CommonEnd(bytes)..]);
      && e.control == U16(bytes, 0) && e.kind == e.control % 8 && e.common == CommonOf(bytes)
      && |e.subelements| == |framed.frames|
      && (forall i :: 0 <= i < |framed.frames| ==> e.subelements[i] == SubelementAt(framed.frames, i))
      && (e.truncated <==> CommonTruncated(bytes) || framed.truncated)
      && e.rawByteCount == if fallback <= 0 then |bytes| else fallback
  {
    hide ReadSlots, Lacks, CommonSlots, Frames, SubelementAt;
    if |bytes| < 2 {
      return None;
    }
    var control := U16(bytes, 0);
    var truncated := false;
    var offset := 2;
    var common: Option<Common> := None;
    if offset < |bytes| {
      var length := bytes[offset];
      var declaredEnd := offset + length;
      var end := if declaredEnd <= |bytes| then declaredEnd else |bytes|;
      if length == 0 || declaredEnd > |bytes| {
        truncated := true;
      }
      if control % 8 == BASIC {
        var fields, lacking := ParseCommonInfo(bytes, offset, end, control);
        common := Some(Common(length, fields));
        truncated := truncated || lacking;
      } else {
        common := Some(Common(length, []));
      }
      offset := end;
    }
    var raws, cut := ParseSubelements(bytes, offset);
    truncated := truncated || cut;
    var count := fallback;
    if count <= 0 {
      count := |bytes|;
    }
    var subelements := Reassemble(raws);
    element := Some(Element(control, control % 8, common, subelements, count, truncated));
  }
}
