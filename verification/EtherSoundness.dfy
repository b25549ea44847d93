/** What a good report of the frame extractor is worth, whatever the bytes: it is of the bytes since a start-of-frame
    delimiter behind enough preamble, and they end in their own check sequence. */
module EtherSoundness {
  import opened Crc32
  import opened EtherSpec
  import opened EtherExtraction

  lemma FedMore(p: Params, r: Regs, s: seq<bv8>)
    requires s != []
    ensures Fed(p, r, s) == NextRegs(p, Fed(p, r, s[..|s| - 1]), s[|s| - 1])
  {
    hide NextRegs;
    assert s == s[..|s| - 1] + [s[|s| - 1]];
    FedAppend(p, r, s[..|s| - 1], [s[|s| - 1]]);
    FedOne(p, Fed(p, r, s[..|s| - 1]), s[|s| - 1]);
  }

  /** While hunting, no more preamble is counted than there was. */
  lemma {:induction false} CountsNoMore(p: Params, r: Regs, s: seq<bv8>)
    requires Ready(r) && Fed(p, r, s).phase == HUNT
    ensures Fed(p, r, s).preCnt <= Trailing(s)
    decreases |s|
  {
    hide Fed, NextRegs;
    if s == [] {
      FedNothing(p, r);
    } else {
      FedMore(p, r, s);
      var m := Fed(p, r, s[..|s| - 1]);
      HuntsOn(p, m, s[|s| - 1]);
      if m.phase == HUNT { CountsNoMore(p, r, s[..|s| - 1]); }
    }
  }

  lemma HuntsOn(p: Params, m: Regs, d: bv8)
    requires NextRegs(p, m, d).phase == HUNT
    ensures NextRegs(p, m, d).preCnt <= if m.phase == HUNT && d == PREAMBLE then m.preCnt + 1 else 0
  {
    hide ByteStep, PlCntNext, Push16, Push48, Push32, Inc, Closes, TypeField, Field;
    var c := Counted(m, d);
    match m.phase
    case DST => FieldByte(c.(dstSr := Push48(m.dstSr, d)), 5, SRC);
    case SRC => FieldByte(c.(srcSr := Push48(m.srcSr, d)), 5, TYPE);
    case TYPE => TypeStays(c, Push16(m.typeSr, d));
    case VLAN => FieldByte(c.(tciSr := Push16(m.tciSr, d)), 1, TYPE);
    case _ =>
  }

  lemma TypeStays(m: Regs, v: bv16)
    requires m.phase == TYPE
    ensures TypeField(m, v).phase != HUNT
  {
  }

  /** From `g` on, the extractor stays in the frame through all of `t`. */
  ghost predicate StaysIn(p: Params, g: Regs, t: seq<bv8>) {
    forall j :: 0 <= j <= |t| ==> Fed(p, g, t[..j]).phase != HUNT
  }

  lemma StaysInPart(p: Params, g: Regs, t: seq<bv8>, n: nat)
    requires StaysIn(p, g, t) && n <= |t|
    ensures StaysIn(p, g, t[..n])
  {
    hide Fed;
    assert forall j :: 0 <= j <= n ==> t[..n][..j] == t[..j];
  }

  /** The byte at `k` is a delimiter behind enough preamble, and everything since is taken for one frame. */
  ghost predicate Started(p: Params, r: Regs, s: seq<bv8>, k: nat) {
    && k < |s| && s[k] == SFD && Trailing(s[..k]) >= p.minPreambleLen
    && AtFrame(Fed(p, r, s[..k + 1])) && StaysIn(p, Fed(p, r, s[..k + 1]), s[k + 1..])
  }

  /** Whoever is in a frame saw it start. */
  lemma {:induction false} FindStart(p: Params, r: Regs, s: seq<bv8>) returns (k: nat)
    requires Ready(r) && Fed(p, r, s).phase != HUNT
    ensures Started(p, r, s, k)
    decreases |s|
  {
    hide Fed, NextRegs, Trailing;
    assert s != [] by { FedNothing(p, r); }
    var n := |s| - 1;
    FedMore(p, r, s);
    var m := Fed(p, r, s[..n]);
    if m.phase == HUNT {
      k := n;
      CountsNoMore(p, r, s[..n]);
      LocksOn(p, m, s[n]);
      assert s[..n + 1] == s && s[n + 1..] == [];
      FedNothing(p, Fed(p, r, s));
    } else {
      k := FindStart(p, r, s[..n]);
      var g, t := Fed(p, r, s[..k + 1]), s[k + 1..];
      assert s[..n][..k] == s[..k] && s[..n][..k + 1] == s[..k + 1];
      forall j | 0 <= j <= |t| ensures Fed(p, g, t[..j]).phase != HUNT {
        if j < |t| {
          assert t[..j] == s[..n][k + 1..][..j];
        } else {
          assert t[..j] == t && s == s[..k + 1] + t;
          FedAppend(p, r, s[..k + 1], t);
        }
      }
    }
  }

  lemma LocksOn(p: Params, m: Regs, d: bv8)
    requires m.phase == HUNT && NextRegs(p, m, d).phase != HUNT
    ensures d == SFD && m.preCnt >= p.minPreambleLen && AtFrame(NextRegs(p, m, d))
  {
  }

  /** How many bytes of the frame the registers have taken. */
  predicate Placed(r: Regs, n: nat) {
    match r.phase
    case HUNT => false
    case DST => n == r.hdrCnt < 6 && !r.vlanSeen
    case SRC => n == 6 + r.hdrCnt && r.hdrCnt < 6 && !r.vlanSeen
    case TYPE => n == (if r.vlanSeen then 16 else 12) + r.hdrCnt && r.hdrCnt < 2
    case VLAN => n == 14 + r.hdrCnt && r.hdrCnt < 2 && r.vlanSeen
    case PAYLOAD => n >= 14
  }

  /** In the frame the register runs over all of its bytes, and the counter counts them. */
  lemma {:induction false} Tracks(p: Params, g: Regs, t: seq<bv8>)
    requires AtFrame(g) && StaysIn(p, g, t)
    ensures var r := Fed(p, g, t); r.crc == Register(INIT, t) && Placed(r, |t|) && (|t| < 0x1_0000 ==> r.frameBytes == |t|)
    decreases |t|
  {
    hide Fed, ByteStep, Register;
    if t == [] {
      FedNothing(p, g);
      RegisterNone();
    } else {
      var n := |t| - 1;
      FedMore(p, g, t);
      assert t[..|t|] == t;
      StaysInPart(p, g, t, n);
      Tracks(p, g, t[..n]);
      RegisterNext(INIT, t, n);
      OneByte(p, Fed(p, g, t[..n]), t[n], n);
    }
  }

  lemma RegisterNone()
    ensures Register(INIT, []) == INIT
  {
  }

  lemma OneByte(p: Params, m: Regs, d: bv8, n: nat)
    requires Placed(m, n) && NextRegs(p, m, d).phase != HUNT
    ensures var r := NextRegs(p, m, d); Placed(r, n + 1) && r.crc == ByteStep(m.crc, d) && r.frameBytes == Inc(m.frameBytes)
  {
    hide ByteStep, Push16, Push48, Push32, PlCntNext, Closes, TypeField, Inc, Field;
    var c := Counted(m, d);
    match m.phase
    case DST => FieldByte(c.(dstSr := Push48(m.dstSr, d)), 5, SRC);
    case SRC => FieldByte(c.(srcSr := Push48(m.srcSr, d)), 5, TYPE);
    case TYPE => TypeByte(c, Push16(m.typeSr, d), n);
    case VLAN => FieldByte(c.(tciSr := Push16(m.tciSr, d)), 1, TYPE);
    case PAYLOAD =>
  }

  lemma FieldByte(m: Regs, last: nat, next: Phase)
    ensures var r := Field(m, last, next);
            && r.phase == (if m.hdrCnt == last then next else m.phase) && r.hdrCnt == (if m.hdrCnt == last then 0 else m.hdrCnt + 1)
            && r.crc == m.crc && r.frameBytes == m.frameBytes && r.vlanSeen == m.vlanSeen
  {
  }

  lemma TypeByte(m: Regs, v: bv16, n: nat)
    requires m.phase == TYPE && Placed(m, n)
    ensures var r := TypeField(m, v); Placed(r, n + 1) && r.crc == m.crc && r.frameBytes == m.frameBytes
  {
  }

  /** The frame that the bytes `t` spell, if they are long enough for a header and a check sequence. */
  function Spelt(t: seq<bv8>): Frame
    requires |t| >= 22 || (|t| >= 18 && Pair(t[12], t[13]) != VLAN_TPID)
  {
    if Pair(t[12], t[13]) == VLAN_TPID
    then Frame(t[..6], t[6..12], Tagged(t[14], t[15]), t[16], t[17], t[18..|t| - 4])
    else Frame(t[..6], t[6..12], Untagged, t[12], t[13], t[14..|t| - 4])
  }

  /** The check sequence does not reach into the header. */
  predicate Whole(t: seq<bv8>) { |t| >= 22 || (|t| >= 18 && Pair(t[12], t[13]) != VLAN_TPID) }

  lemma TpidSpelt(a: bv8, b: bv8)
    requires Pair(a, b) == VLAN_TPID
    ensures a == 0x81 && b == 0
  {
  }

  lemma SpeltIs(t: seq<bv8>)
    requires Whole(t) && EndsInFcs(t)
    ensures var f := Spelt(t); f.Valid() && OnWire(f) == t && |f.Header()| + 4 <= |t|
  {
    hide Fcs;
    var f := Spelt(t);
    if Pair(t[12], t[13]) == VLAN_TPID { TpidSpelt(t[12], t[13]); }
    assert f.Header() == t[..|f.Header()|];
    assert f.Body() == t[..|t| - 4];
    assert t == t[..|t| - 4] + t[|t| - 4..];
  }

  /** In the payload state, what does not end the frame is no check sequence and within the limit. */
  lemma NotEnding(p: Params, g: Regs, t: seq<bv8>, i: nat)
    requires AtFrame(g) && 4 <= i < |t| && StaysIn(p, g, t[..i]) && Fed(p, g, t[..i - 1]).phase == PAYLOAD
    ensures !EndsInFcs(t[..i]) && Fed(p, g, t[..i]).phase == PAYLOAD
    ensures i < 0x1_0000 ==> i <= p.maxFrameBytes
  {
    hide Fed, ByteStep, Register, Fcs, RESIDUE;
    var u := t[..i];
    FedMore(p, g, u);
    assert u[..i - 1] == t[..i - 1] && u[..i] == u;
    StaysInPart(p, g, u, i - 1);
    Tracks(p, g, u[..i - 1]);
    RegisterNext(INIT, u, i - 1);
    ResidueIffFcs(u);
  }

  lemma {:induction false} PayloadOnwards(p: Params, g: Regs, t: seq<bv8>, h: nat, i: nat)
    requires AtFrame(g) && 4 <= h <= i <= |t| && StaysIn(p, g, t[..i]) && Fed(p, g, t[..h]).phase == PAYLOAD
    ensures Fed(p, g, t[..i]).phase == PAYLOAD
    decreases i
  {
    hide Fed, EndsInFcs;
    if i > h {
      StaysInPart(p, g, t[..i], i - 1);
      assert t[..i][..i - 1] == t[..i - 1];
      PayloadOnwards(p, g, t, h, i - 1);
      FedMore(p, g, t[..i]);
      assert t[..i][..i] == t[..i];
      PayloadNext(p, Fed(p, g, t[..i - 1]), t[i - 1]);
    }
  }

  lemma PayloadNext(p: Params, m: Regs, d: bv8)
    requires m.phase == PAYLOAD && NextRegs(p, m, d).phase != HUNT
    ensures NextRegs(p, m, d).phase == PAYLOAD
  {
  }

  lemma {:induction false} EndsHere(p: Params, g: Regs, t: seq<bv8>)
    requires AtFrame(g) && t != [] && StaysIn(p, g, t[..|t| - 1]) && CrcHit(Fed(p, g, t[..|t| - 1]), t[|t| - 1])
    ensures |t| >= 15 && EndsInFcs(t)
  {
    hide Fed, ByteStep, Register, Fcs, RESIDUE;
    var n := |t| - 1;
    Tracks(p, g, t[..n]);
    assert t[..|t|] == t;
    RegisterNext(INIT, t, n);
    ResidueIffFcs(t);
  }

  /** Up to the end of the header the bytes are those of the frame they spell. */
  lemma HeaderOf(p: Params, g: Regs, t: seq<bv8>) returns (f: Frame, m: nat)
    requires AtFrame(g) && Whole(t) && EndsInFcs(t)
    ensures f == Spelt(t) && f.Valid() && OnWire(f) == t && m == |f.Header()| && 14 <= m <= |t| - 4
    ensures t[..m] == f.Header() && HeaderIn(Fed(p, g, t[..m]), f) && ShownBy(p, g, t[..m]) == []
  {
    hide Fcs, Fed, ShownBy, HeaderIn, AtFrame;
    f := Spelt(t);
    SpeltIs(t);
    m := |f.Header()|;
    assert t == f.Header() + (f.rest + Fcs(f.Body()));
    HeaderRead(p, g, f);
  }

  /** A frame closed by its check sequence was within the limit, and no part of it was a check sequence before. */
  lemma ClosedInTime(p: Params, g: Regs, t: seq<bv8>, f: Frame, m: nat)
    requires AtFrame(g) && t != [] && StaysIn(p, g, t[..|t| - 1])
    requires f.Valid() && OnWire(f) == t && m == |f.Header()| && 14 <= m <= |t| - 4
    requires Fed(p, g, t[..m]).phase == PAYLOAD
    ensures NoEarlyFcs(f)
    ensures |t| < 0x1_0000 ==> |t| <= p.maxFrameBytes + 1
    ensures |t| >= 0x1_0000 ==> p.maxFrameBytes == 0xFFFF
  {
    hide Fcs, Fed, AtFrame;
    forall i | m < i < |t| ensures !EndsInFcs(t[..i]) && (i < 0x1_0000 ==> i <= p.maxFrameBytes) {
      StaysInPart(p, g, t[..|t| - 1], i);
      assert t[..|t| - 1][..i] == t[..i];
      StaysInPart(p, g, t[..i], i - 1);
      assert t[..i][..i - 1] == t[..i - 1];
      PayloadOnwards(p, g, t, m, i - 1);
      NotEnding(p, g, t, i);
    }
    assert |t| >= 0x1_0000 ==> !EndsInFcs(t[..0xFFFF]);
  }

  /** What has been shown since the delimiter is the payload and the report of the frame that the bytes spell. */
  lemma FrameShown(p: Params, g: Regs, t: seq<bv8>)
    requires AtFrame(g) && Whole(t) && EndsInFcs(t) && StaysIn(p, g, t[..|t| - 1])
    ensures Spelt(t).Valid() && OnWire(Spelt(t)) == t
    ensures |t| < 0x1_0000 ==> Extracts(p, Spelt(t), ShownBy(p, g, t))
    ensures |t| >= 0x1_0000 ==> p.maxFrameBytes == 0xFFFF
  {
    hide Fcs, Fed, ShownBy, AtFrame, NoEarlyFcs, Extracts, StaysIn;
    var f, m := HeaderOf(p, g, t);
    ClosedInTime(p, g, t, f, m);
    if |t| < 0x1_0000 {
      var h := Fed(p, g, t[..m]);
      FrameResult(p, h, f);
      assert t == t[..m] + t[m..];
      FedAppend(p, g, t[..m], t[m..]);
      assert ShownBy(p, g, t) == ShownBy(p, h, t[m..]);
    }
  }

  /** Soundness: whatever the bytes, a report of a good frame is of the bytes since a delimiter behind enough preamble,
      and they end in their own check sequence. Unless that reaches into the header, they are a frame, and what was
      shown since the delimiter is its payload and its report; a frame of 2^16 bytes or more needs the largest limit. */
  lemma GoodReportIsSound(p: Params, s: Ethernet, ins: seq<Input>, d: bv8, report: Report) returns (k: nat)
    requires Ready(s.regs) && Done(report) in Events(Clocked(p, After(p, s, ins), Byte(d)).out) && report.fcsOk
    ensures var bytes := Bytes(ins) + [d];
            && k < |bytes| && bytes[k] == SFD && Trailing(bytes[..k]) >= p.minPreambleLen
            && var t := bytes[k + 1..];
               && |t| >= 15 && EndsInFcs(t)
               && (Whole(t) ==> OnWire(Spelt(t)) == t && Spelt(t).Valid())
               && (Whole(t) && |t| < 0x1_0000 ==> Extracts(p, Spelt(t), ShownBy(p, Fed(p, s.regs, bytes[..k + 1]), t)))
               && (Whole(t) && |t| >= 0x1_0000 ==> p.maxFrameBytes == 0xFFFF)
  {
    hide Fed, ShownBy, AtFrame, StaysIn, Extracts, EndsInFcs, Trailing, Spelt;
    StallsDoNotMatter(p, s, ins);
    var before, bytes := Bytes(ins), Bytes(ins) + [d];
    var m := Fed(p, s.regs, before);
    ReportCloses(p, After(p, s, ins), d, report);
    k := FindStart(p, s.regs, before);
    var g, t := Fed(p, s.regs, before[..k + 1]), bytes[k + 1..];
    assert bytes[..k] == before[..k] && bytes[..k + 1] == before[..k + 1] && t == before[k + 1..] + [d];
    assert t[..|t| - 1] == before[k + 1..] && before == before[..k + 1] + before[k + 1..];
    FedAppend(p, s.regs, before[..k + 1], before[k + 1..]);
    EndsHere(p, g, t);
    if Whole(t) { FrameShown(p, g, t); }
  }

  lemma ReportCloses(p: Params, s: Ethernet, d: bv8, report: Report)
    requires Done(report) in Events(Clocked(p, s, Byte(d)).out) && report.fcsOk
    ensures CrcHit(s.regs, d)
  {
    hide ByteStep, PlEmit, NextRegs;
  }
}
