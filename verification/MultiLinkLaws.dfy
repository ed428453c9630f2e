/**
 Multi-Link framing and defragmentation lose nothing.
 */
module MultiLinkLaws {
  import opened Outcomes
  import opened MultiLink

  // ---------------------------------------------------------------- nothing is lost

  /** An element as a sender lays it out. */
  function Built(control: nat, common: seq<byte>, fs: seq<Frame>): seq<byte>
    requires control < 65536
  {
    [control % 256, control / 256] + common + EncodeAll(fs)
  }

  /** Parsing an encoded list of subelements returns that list, behind any Common Info of the length it declares. */
  lemma SubelementsRoundTrip(control: nat, common: seq<byte>, fs: seq<Frame>)
    requires control < 65536 && AllWhole(fs) && common != [] && common[0] == |common|
    ensures var bytes := Built(control, common, fs);
      U16(bytes, 0) == control && Frames(bytes[CommonEnd(bytes)..]) == Framed(fs, false)
  {
    hide Frames;
    var bytes := Built(control, common, fs);
    assert bytes[2] == common[0];
    assert CommonEnd(bytes) == 2 + |common|;
    assert bytes[2 + |common|..] == EncodeAll(fs);
    FramesOfEncoded(fs);
  }

  /** The subelements of an element that is not called truncated encode to exactly the bytes behind Common Info. */
  lemma UntruncatedReencodes(bytes: seq<byte>)
    requires |bytes| >= 2
    ensures var rest := bytes[CommonEnd(bytes)..];
      !Frames(rest).truncated ==> AllWhole(Frames(rest).frames) && EncodeAll(Frames(rest).frames) == rest
  {
    var left := EncodedFrames(bytes[CommonEnd(bytes)..]);
  }

  function DataOf(fs: seq<Frame>): seq<seq<byte>> {
    seq(|fs|, i requires 0 <= i < |fs| => fs[i].data)
  }

  /** The fragments of a subelement are the unbroken run of fragments behind it, up to the next subelement or the end. */
  lemma {:induction false} PiecesAreTheRun(fs: seq<Frame>, a: nat, n: nat) returns (b: nat)
    requires a < n <= |fs| && !IsFragment(fs[a].id)
    ensures a < b <= n && (forall j :: a < j < b ==> IsFragment(fs[j].id)) && (b < n ==> !IsFragment(fs[b].id))
    ensures Pieces(fs, a, n) == DataOf(fs[a + 1..b])
  {
    hide IsFragment, Anchor;
    if n == a + 1 {
      b := n;
      NoPiecesBefore(fs, a, a);
    } else {
      b := PiecesAreTheRun(fs, a, n - 1);
      AnchorBelow(fs, n - 1);
      if b == n - 1 && IsFragment(fs[n - 1].id) {
        AnchorIs(fs, a, n - 1);
        assert fs[a + 1..n] == fs[a + 1..n - 1] + [fs[n - 1]];
        b := n;
      } else if b < n - 1 {
        assert Anchor(fs, n - 1) != Some(a);
      }
    }
  }

  lemma {:induction false} AnchorIs(fs: seq<Frame>, a: nat, i: nat)
    requires a < i <= |fs| && !IsFragment(fs[a].id) && forall j :: a < j < i ==> IsFragment(fs[j].id)
    ensures Anchor(fs, i) == Some(a)
  {
    if i > a + 1 {
      AnchorIs(fs, a, i - 1);
    }
  }

  lemma {:induction false} NoPiecesBefore(fs: seq<Frame>, a: nat, n: nat)
    requires n <= a < |fs|
    ensures Pieces(fs, a, n) == []
  {
    if n > 0 {
      NoPiecesBefore(fs, a, n - 1);
      AnchorBelow(fs, n - 1);
    }
  }

  /** The reassembled data of a subelement: its own, and behind it that of its run of fragments. */
  lemma ReassembledIsRun(fs: seq<Frame>, a: nat) returns (b: nat)
    requires a < |fs| && !IsFragment(fs[a].id)
    ensures a < b <= |fs| && (forall j :: a < j < b ==> IsFragment(fs[j].id)) && (b < |fs| ==> !IsFragment(fs[b].id))
    ensures Reassembled(fs, a) == Concat(DataOf(fs[a..b]))
  {
    b := PiecesAreTheRun(fs, a, |fs|);
    assert fs[a..b] == [fs[a]] + fs[a + 1..b];
    JoinCons(fs[a].data, DataOf(fs[a + 1..b]));
    assert DataOf(fs[a..b]) == [fs[a].data] + DataOf(fs[a + 1..b]);
  }

  lemma JoinSnoc(pieces: seq<seq<byte>>, last: seq<byte>)
    ensures Concat(pieces + [last]) == Concat(pieces) + last
  {
    assert (pieces + [last])[..|pieces|] == pieces;
  }

  lemma {:induction false} JoinCons(first: seq<byte>, rest: seq<seq<byte>>)
    ensures Concat([first] + rest) == first + Concat(rest)
  {
    hide Concat;
    if rest == [] {
      JoinSnoc([], first);
      NothingJoined();
      assert [first] + rest == [] + [first];
    } else {
      var n := |rest| - 1;
      JoinCons(first, rest[..n]);
      assert rest == rest[..n] + [rest[n]];
      assert [first] + rest == [first] + rest[..n] + [rest[n]];
      JoinSnoc([first] + rest[..n], rest[n]);
      JoinSnoc(rest[..n], rest[n]);
    }
  }

  lemma NothingJoined()
    ensures Concat([]) == []
  {
  }

  /** The reassembled data of a subelement as it stands after n; a fragment has none of its own. */
  function Part(fs: seq<Frame>, a: nat, n: nat): seq<byte>
    requires a < |fs| && n <= |fs|
  {
    if IsFragment(fs[a].id) then [] else fs[a].data + Concat(Pieces(fs, a, n))
  }

  function Collected(fs: seq<Frame>, m: nat, n: nat): seq<byte>
    requires m <= |fs| && n <= |fs|
  {
    if m == 0 then [] else Collected(fs, m - 1, n) + Part(fs, m - 1, n)
  }

  /** The data of the fragments before n that follow no subelement. */
  function Orphans(fs: seq<Frame>, n: nat): seq<byte>
    requires n <= |fs|
  {
    if n == 0 then []
    else Orphans(fs, n - 1) + if IsFragment(fs[n - 1].id) && Anchor(fs, n - 1).None? then fs[n - 1].data else []
  }

  lemma PartAfter(fs: seq<Frame>, a: nat, n: nat)
    requires a < |fs| && n < |fs|
    ensures Part(fs, a, n + 1) ==
      if !IsFragment(fs[a].id) && IsFragment(fs[n].id) && Anchor(fs, n) == Some(a) then Part(fs, a, n) + fs[n].data else Part(fs, a, n)
  {
    hide IsFragment, Anchor, Concat;
    JoinSnoc(Pieces(fs, a, n), fs[n].data);
    assert Pieces(fs, a, n) + [] == Pieces(fs, a, n);
  }

  lemma {:induction false} OthersCollected(fs: seq<Frame>, m: nat, n: nat)
    requires m <= |fs| && n < |fs|
    requires IsFragment(fs[n].id) && Anchor(fs, n).Some? ==> m <= Anchor(fs, n).value
    ensures Collected(fs, m, n + 1) == Collected(fs, m, n)
  {
    hide IsFragment, Anchor, Part;
    if m > 0 {
      OthersCollected(fs, m - 1, n);
      PartAfter(fs, m - 1, n);
    }
  }

  lemma {:induction false} FragmentsCollectNothing(fs: seq<Frame>, a: nat, m: nat, n: nat)
    requires a <= m <= |fs| && n <= |fs| && forall j :: a <= j < m ==> IsFragment(fs[j].id)
    ensures Collected(fs, m, n) == Collected(fs, a, n)
    decreases m
  {
    hide Pieces, Concat;
    if m > a {
      FragmentsCollectNothing(fs, a, m - 1, n);
      assert Part(fs, m - 1, n) == [];
    }
  }

  lemma OneCollected(fs: seq<Frame>, m: nat, n: nat)
    requires m < |fs| && n <= |fs|
    ensures Collected(fs, m + 1, n) == Collected(fs, m, n) + Part(fs, m, n)
  {
  }

  lemma CollectedRun(fs: seq<Frame>, a: nat, m: nat, n: nat)
    requires a < m <= |fs| && n <= |fs| && forall j :: a < j < m ==> IsFragment(fs[j].id)
    ensures Collected(fs, m, n) == Collected(fs, a, n) + Part(fs, a, n)
  {
    hide Collected, Part, IsFragment;
    FragmentsCollectNothing(fs, a + 1, m, n);
    OneCollected(fs, a, n);
  }

  lemma FragmentCollected(fs: seq<Frame>, n: nat, a: nat)
    requires n < |fs| && a < n && IsFragment(fs[n].id) && !IsFragment(fs[a].id) && Anchor(fs, n) == Some(a)
    requires forall j :: a < j < n ==> IsFragment(fs[j].id)
    ensures Collected(fs, n, n + 1) == Collected(fs, n, n) + fs[n].data
  {
    hide IsFragment, Anchor, Part, Collected;
    CollectedRun(fs, a, n, n);
    CollectedRun(fs, a, n, n + 1);
    OthersCollected(fs, a, n);
    PartAfter(fs, a, n);
  }

  lemma NewPart(fs: seq<Frame>, a: nat)
    requires a < |fs| && !IsFragment(fs[a].id)
    ensures Part(fs, a, a + 1) == fs[a].data
  {
    hide Anchor;
    NoPiecesBefore(fs, a, a);
    assert Pieces(fs, a, a + 1) == [];
    assert fs[a].data + [] == fs[a].data;
  }

  lemma NoPart(fs: seq<Frame>, a: nat, n: nat)
    requires a < |fs| && n <= |fs| && IsFragment(fs[a].id)
    ensures Part(fs, a, n) == []
  {
  }

  lemma {:induction false} NothingCollected(fs: seq<Frame>, m: nat, n: nat)
    requires m <= |fs| && n <= |fs| && Anchor(fs, m).None?
    ensures Collected(fs, m, n) == []
  {
    hide Part;
    if m > 0 {
      NothingCollected(fs, m - 1, n);
      NoPart(fs, m - 1, n);
    }
  }

  lemma Appended(o: seq<byte>, c: seq<byte>, d: seq<byte>)
    ensures (o + []) + (c + d) == o + c + d
    ensures (o + []) + ((c + d) + []) == o + c + d
    ensures (o + d) + ([] + []) == o + [] + d
  {
  }

  lemma OneOrphan(fs: seq<Frame>, n: nat)
    requires n < |fs|
    ensures Orphans(fs, n + 1) == Orphans(fs, n) + if IsFragment(fs[n].id) && Anchor(fs, n).None? then fs[n].data else []
  {
  }

  /** One frame more adds its data, to the orphans or to what is reassembled. */
  lemma FrameCollected(fs: seq<Frame>, n: nat)
    requires n < |fs|
    ensures Orphans(fs, n + 1) + Collected(fs, n + 1, n + 1) == Orphans(fs, n) + Collected(fs, n, n) + fs[n].data
  {
    hide IsFragment, Anchor, Part, Orphans, Collected;
    OneOrphan(fs, n);
    OneCollected(fs, n, n + 1);
    Appended(Orphans(fs, n), Collected(fs, n, n), fs[n].data);
    var a := Anchor(fs, n);
    if !IsFragment(fs[n].id) {
      OthersCollected(fs, n, n);
      NewPart(fs, n);
    } else {
      NoPart(fs, n, n + 1);
      if a.Some? {
        AnchorBelow(fs, n);
        FragmentCollected(fs, n, a.value);
      } else {
        NothingCollected(fs, n, n);
        NothingCollected(fs, n, n + 1);
      }
    }
  }

  lemma DataStep(fs: seq<Frame>, n: nat)
    requires n < |fs|
    ensures Concat(DataOf(fs[..n + 1])) == Concat(DataOf(fs[..n])) + fs[n].data
  {
    hide Concat, DataOf;
    DataSnoc(fs, n);
    JoinSnoc(DataOf(fs[..n]), fs[n].data);
  }

  lemma NothingYet(fs: seq<Frame>)
    ensures Orphans(fs, 0) + Collected(fs, 0, 0) == []
  {
  }

  lemma Carried(before: seq<byte>, after: seq<byte>, o: seq<byte>, c: seq<byte>, d: seq<byte>, next: seq<byte>)
    requires before == o + c && after == before + d && next == o + c + d
    ensures after == next
  {
  }

  lemma ConservedStep(fs: seq<Frame>, m: nat)
    requires m < |fs| && Concat(DataOf(fs[..m])) == Orphans(fs, m) + Collected(fs, m, m)
    ensures Concat(DataOf(fs[..m + 1])) == Orphans(fs, m + 1) + Collected(fs, m + 1, m + 1)
  {
    hide Orphans, Collected, Concat, DataOf;
    DataStep(fs, m);
    FrameCollected(fs, m);
    Carried(Concat(DataOf(fs[..m])), Concat(DataOf(fs[..m + 1])), Orphans(fs, m), Collected(fs, m, m), fs[m].data,
            Orphans(fs, m + 1) + Collected(fs, m + 1, m + 1));
  }

  /**
   Conservation: whatever leading fragments there are without a subelement, then the
   reassembled data of the subelements in order, are all the data there is, in order.
   */
  lemma {:induction false} DataIsConserved(fs: seq<Frame>, n: nat)
    requires n <= |fs|
    ensures Concat(DataOf(fs[..n])) == Orphans(fs, n) + Collected(fs, n, n)
  {
    hide Orphans, Collected, Concat, DataOf;
    if n == 0 {
      NoData(fs);
      NothingYet(fs);
    } else {
      DataIsConserved(fs, n - 1);
      ConservedStep(fs, n - 1);
    }
  }

  lemma NoData(fs: seq<Frame>)
    ensures Concat(DataOf(fs[..0])) == []
  {
  }

  lemma DataSnoc(fs: seq<Frame>, n: nat)
    requires n < |fs|
    ensures DataOf(fs[..n + 1]) == DataOf(fs[..n]) + [fs[n].data]
  {
  }

  /** The same for all the frames of an element: what is reassembled, with the orphaned fragments, is everything. */
  lemma ReassemblyLosesNothing(fs: seq<Frame>)
    ensures Concat(DataOf(fs)) == Orphans(fs, |fs|) + Collected(fs, |fs|, |fs|)
    ensures forall i :: 0 <= i < |fs| ==> Part(fs, i, |fs|) == if IsFragment(fs[i].id) then [] else Reassembled(fs, i)
  {
    hide Concat, DataOf, Pieces;
    DataIsConserved(fs, |fs|);
    assert fs[..|fs|] == fs;
  }

  // ---------------------------------------------------------------- splitting a profile

  /** Everything but the first 255 bytes goes into fragments, which have the id 254 or, in older drafts, 1; a profile itself has 0. */
  function Fragments(data: seq<byte>, id: byte): seq<Frame> {
    if data == [] then []
    else if |data| <= 255 then [Frame(id, |data|, data)]
    else [Frame(id, 255, data[..255])] + Fragments(data[255..], id)
  }

  function Split(data: seq<byte>, id: byte): seq<Frame> {
    if |data| <= 255 then [Frame(0, |data|, data)]
    else [Frame(0, 255, data[..255])] + Fragments(data[255..], id)
  }

  lemma {:induction false} FragmentsJoin(data: seq<byte>, id: byte)
    requires id == 254 || id == 1
    ensures var fs := Fragments(data, id);
      AllWhole(fs) && Concat(DataOf(fs)) == data && forall i :: 0 <= i < |fs| ==> IsFragment(fs[i].id)
  {
    if 0 < |data| <= 255 {
      assert DataOf(Fragments(data, id)) == [data];
      JoinCons(data, []);
      assert [data] + [] == [data];
    } else if |data| > 255 {
      FragmentsJoin(data[255..], id);
      var fs := Fragments(data, id);
      assert DataOf(fs) == [data[..255]] + DataOf(Fragments(data[255..], id));
      JoinCons(data[..255], DataOf(Fragments(data[255..], id)));
    }
  }

  lemma SplitJoins(data: seq<byte>, id: byte)
    requires id == 254 || id == 1
    ensures var fs := Split(data, id);
      && |fs| >= 1 && AllWhole(fs) && Concat(DataOf(fs)) == data && fs[0].id == PER_STA_PROFILE
      && forall i :: 1 <= i < |fs| ==> IsFragment(fs[i].id)
  {
    var fs := Split(data, id);
    if |data| <= 255 {
      assert DataOf(fs) == [data] + [];
      JoinCons(data, []);
    } else {
      FragmentsJoin(data[255..], id);
      assert DataOf(fs) == [data[..255]] + DataOf(Fragments(data[255..], id));
      JoinCons(data[..255], DataOf(Fragments(data[255..], id)));
    }
  }

  lemma SplitShows(data: seq<byte>, id: byte)
    requires id == 254 || id == 1
    ensures |Pieces(Split(data, id), 0, |Split(data, id)|)| == |Split(data, id)| - 1
    ensures |Split(data, id)| == 1 <==> |data| <= 255
  {
    hide Pieces;
    SplitJoins(data, id);
    var fs := Split(data, id);
    assert !IsFragment(fs[0].id);
    var b := PiecesAreTheRun(fs, 0, |fs|);
    assert b == |fs|;
  }

  /**
   Defragmentation undoes fragmentation: a Per-STA profile of any length, split into a
   subelement and its fragments and encoded, is parsed back to the same profile.
   */
  lemma SplitProfileParsesBack(data: seq<byte>, id: byte)
    requires id == 254 || id == 1
    ensures var framed := Frames(EncodeAll(Split(data, id)));
      && framed == Framed(Split(data, id), false)
      && Reassembled(framed.frames, 0) == data
      && SubelementAt(framed.frames, 0).profile == ProfileOf(data, false)
      && (forall i :: 1 <= i < |framed.frames| ==> SubelementAt(framed.frames, i).target == Some(Some(PER_STA_PROFILE)))
      && var first := SubelementAt(framed.frames, 0);
         first.fragmentCount == |framed.frames| - 1 && !first.truncated
         && first.reassembledLength == if |data| <= 255 then None else Some(|data|)
  {
    hide Frames, ProfileOf, Reassembled;
    SplitJoins(data, id);
    var fs := Split(data, id);
    FramesOfEncoded(fs);
    assert !IsFragment(fs[0].id);
    var b := ReassembledIsRun(fs, 0);
    assert b == |fs|;
    assert fs[0..|fs|] == fs;
    assert fs[0] in fs;
    SplitShows(data, id);
    forall i | 1 <= i < |fs|
      ensures SubelementAt(fs, i).target == Some(Some(PER_STA_PROFILE))
    {
      AnchorIs(fs, 0, i);
    }
  }

  /** A profile built of a control field, STA Info of the length it declares, and whole elements has exactly these elements. */
  lemma ProfileRoundTrip(control: nat, fields: seq<Option<seq<byte>>>, fs: seq<Frame>)
    requires control < 65536 && Fits(fields, StaSlots(control)) && AllWhole(fs)
    ensures
      var info := FieldBytes(fields);
      && |info| < 255
      && var data := [control % 256, control / 256, 1 + |info|] + info + EncodeAll(fs);
         var p := ProfileOf(data, false);
         && p.Some? && p.value.control == control && p.value.fields == fields && !p.value.truncated
         && p.value.elements == AsElements(fs) && !p.value.elementsTruncated
  {
    hide Frames, HasBit, Fits;
    var slots := StaSlots(control);
    FieldSpan(fields, slots);
    StaSpan(control);
    var info := FieldBytes(fields);
    var head := [control % 256, control / 256, 1 + |info|];
    var data := head + info + EncodeAll(fs);
    assert U16(data, 0) == control;
    var end := InfoEnd(data);
    assert end == 3 + |info|;
    FieldsRoundTrip(head, fields, EncodeAll(fs), slots, end);
    LacksExactly(data, slots, 3, end);
    assert data[end..] == EncodeAll(fs);
    FramesOfEncoded(fs);
  }

  lemma StaSpan(control: nat)
    ensures Span(StaSlots(control)) <= 21
  {
    hide HasBit;
    var s := StaSlots(control);
    assert s[..7] == s;
    assert s[..7][..6] == s[..6] && s[..6][..5] == s[..5] && s[..5][..4] == s[..4] && s[..4][..3] == s[..3];
    assert s[..3][..2] == s[..2] && s[..2][..1] == s[..1] && s[..1][..0] == [];
    assert Span(s[..1]) <= 6;
    assert Span(s[..2]) <= 8;
    assert Span(s[..3]) <= 16;
    assert Span(s[..4]) <= 17;
    assert Span(s[..5]) <= 18;
    assert Span(s[..6]) <= 20;
  }
}
