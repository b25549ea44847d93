/** What the frame extractor gets out of a byte stream: exactly the frames in it, whatever lies between them and
    however the stream stalls. */
module EtherExtraction {
  import opened Crc32
  import opened EtherSpec

  /** What can be seen at the outputs: a payload beat, or a finished attempt. */
  datatype Event = Beat(data: bv8, last: bool) | Done(report: Report)

  function Events(o: Outputs): seq<Event> {
    (if o.plValid then [Beat(o.plData, o.plLast)] else []) + (if o.valid then [Done(o.report)] else [])
  }

  datatype Input = Stall | Byte(data: bv8)

  /** Clocking in a byte or a stall, without reset. */
  function Clocked(p: Params, s: Ethernet, i: Input): Ethernet {
    Clock(p, s, false, i.Byte?, if i.Byte? then i.data else 0)
  }

  /** Everything the outputs show over a run of clocks. */
  function Seen(p: Params, s: Ethernet, ins: seq<Input>): seq<Event>
    decreases |ins|
  {
    if ins == [] then [] else Events(Clocked(p, s, ins[0]).out) + Seen(p, Clocked(p, s, ins[0]), ins[1..])
  }

  function After(p: Params, s: Ethernet, ins: seq<Input>): Ethernet
    decreases |ins|
  {
    if ins == [] then s else After(p, Clocked(p, s, ins[0]), ins[1..])
  }

  /** The bytes among the inputs. */
  function Bytes(ins: seq<Input>): seq<bv8>
    decreases |ins|
  {
    if ins == [] then [] else (if ins[0].Byte? then [ins[0].data] else []) + Bytes(ins[1..])
  }

  // ---------------------------------------------------------------------------------------------
  // Stalls do not matter
  // ---------------------------------------------------------------------------------------------

  /** What one byte makes visible. */
  function Shown(p: Params, r: Regs, d: bv8): seq<Event> {
    (if PlEmit(r) then [Beat(Oldest(r.dly), PlLast(r, d))] else [])
    + (if r.phase == PAYLOAD && Closes(p, r, d) then [Done(ReportOf(p, r, d))] else [])
  }

  function Fed(p: Params, r: Regs, bytes: seq<bv8>): Regs
    decreases |bytes|
  {
    if bytes == [] then r else Fed(p, NextRegs(p, r, bytes[0]), bytes[1..])
  }

  function ShownBy(p: Params, r: Regs, bytes: seq<bv8>): seq<Event>
    decreases |bytes|
  {
    if bytes == [] then [] else Shown(p, r, bytes[0]) + ShownBy(p, NextRegs(p, r, bytes[0]), bytes[1..])
  }

  lemma {:induction false} StallsDoNotMatter(p: Params, s: Ethernet, ins: seq<Input>)
    ensures Seen(p, s, ins) == ShownBy(p, s.regs, Bytes(ins))
    ensures After(p, s, ins).regs == Fed(p, s.regs, Bytes(ins))
    decreases |ins|
  {
    hide NextRegs, ReportOf, PlEmit, PlLast, Closes;
    if ins != [] {
      var t := Clocked(p, s, ins[0]);
      StallsDoNotMatter(p, t, ins[1..]);
      if ins[0].Byte? {
        assert Bytes(ins) == [ins[0].data] + Bytes(ins[1..]);
        assert Bytes(ins)[1..] == Bytes(ins[1..]) && Bytes(ins)[0] == ins[0].data;
      } else {
        assert Bytes(ins) == Bytes(ins[1..]);
      }
      assert Events(t.out) == if ins[0].Byte? then Shown(p, s.regs, ins[0].data) else [];
    }
  }

  lemma {:induction false} FedAppend(p: Params, r: Regs, a: seq<bv8>, b: seq<bv8>)
    ensures Fed(p, r, a + b) == Fed(p, Fed(p, r, a), b)
    ensures ShownBy(p, r, a + b) == ShownBy(p, r, a) + ShownBy(p, Fed(p, r, a), b)
    decreases |a|
  {
    hide NextRegs, Shown;
    if a == [] {
      assert a + b == b;
    } else {
      FedAppend(p, NextRegs(p, r, a[0]), a[1..], b);
      assert (a + b)[1..] == a[1..] + b && (a + b)[0] == a[0];
    }
  }

  // ---------------------------------------------------------------------------------------------
  // Hunting
  // ---------------------------------------------------------------------------------------------

  /** Preamble bytes at the end of `s`. */
  function Trailing(s: seq<bv8>): nat
    decreases |s|
  {
    if s == [] || s[|s| - 1] != PREAMBLE then 0 else 1 + Trailing(s[..|s| - 1])
  }

  /** No start-of-frame delimiter in `s` follows enough preamble bytes. */
  ghost predicate NoStart(p: Params, s: seq<bv8>) {
    forall i :: 0 <= i < |s| && s[i] == SFD ==> Trailing(s[..i]) < p.minPreambleLen
  }

  predicate Ready(r: Regs) { r.phase == HUNT && r.preCnt == 0 }

  /** A reset at any clock, whatever came before and with it, leaves the extractor ready, showing nothing, and with nothing left
      of the report before. */
  lemma ResetForgets(p: Params, s: Ethernet, valid: bool, data: bv8)
    ensures var f := Clock(p, s, true, valid, data);
            && Ready(f.regs) && Events(f.out) == [] && !f.out.report.fcsOk && !f.out.report.errRunt && !f.out.report.errOversize
            && !f.out.report.vlanValid && f.out.report.payloadBytes == 0
            && f.out.report.dstMac == f.out.report.srcMac == 0 && f.out.report.ethertype == f.out.report.vlanTci == 0
  {
  }

  function Saturated(n: nat): u3 { if n < 7 then n else 7 }

  lemma {:induction false} HuntCounts(p: Params, r: Regs, before: seq<bv8>, s: seq<bv8>)
    requires r.phase == HUNT && r.preCnt == Saturated(Trailing(before)) && NoStart(p, before + s)
    ensures var f := Fed(p, r, s); f.phase == HUNT && f.preCnt == Saturated(Trailing(before + s))
    ensures ShownBy(p, r, s) == []
    decreases |s|
  {
    hide NextRegs, Shown, Trailing;
    if s == [] {
      assert before + s == before;
    } else {
      var now := before + [s[0]];
      assert (before + s)[..|before|] == before && (before + s)[|before|] == s[0];
      assert before + s == now + s[1..];
      HuntStep(p, r, before, s[0]);
      HuntCounts(p, NextRegs(p, r, s[0]), now, s[1..]);
    }
  }

  /** One more byte while hunting, that starts no frame. */
  lemma HuntStep(p: Params, r: Regs, before: seq<bv8>, d: bv8)
    requires r.phase == HUNT && r.preCnt == Saturated(Trailing(before)) && (d == SFD ==> Trailing(before) < p.minPreambleLen)
    ensures var f := NextRegs(p, r, d); f.phase == HUNT && f.preCnt == Saturated(Trailing(before + [d])) && Shown(p, r, d) == []
  {
    assert (before + [d])[..|before|] == before;
  }

  function Preamble(n: nat): seq<bv8> { seq(n, _ => 0x55) }

  lemma {:induction false} PreambleTrails(s: seq<bv8>, n: nat)
    ensures Trailing(s + Preamble(n)) >= n
    decreases n
  {
    if n > 0 {
      var t := s + Preamble(n);
      assert t[..|t| - 1] == s + Preamble(n - 1);
      PreambleTrails(s, n - 1);
    }
  }

  lemma PreambleIsNoStart(p: Params, s: seq<bv8>, n: nat)
    requires NoStart(p, s)
    ensures NoStart(p, s + Preamble(n))
  {
    var t := s + Preamble(n);
    forall i | 0 <= i < |t| && t[i] == SFD ensures Trailing(t[..i]) < p.minPreambleLen {
      assert i < |s| && t[..i] == s[..i] && s[i] == SFD;
    }
  }

  /** The registers at the first byte of a frame. */
  predicate AtFrame(r: Regs) {
    && r.phase == DST && r.hdrCnt == 0 && r.frameBytes == 0 && r.plCnt == 0 && r.dlyCnt == 0 && r.crc == INIT
    && !r.vlanSeen && !r.lenMode
  }

  /** Filler, a long enough preamble and the delimiter lock onto the frame that follows. */
  lemma Locks(p: Params, r: Regs, filler: seq<bv8>, n: nat)
    requires Ready(r) && NoStart(p, filler) && n >= p.minPreambleLen
    ensures var lead := filler + Preamble(n) + [0xD5];
            AtFrame(Fed(p, r, lead)) && ShownBy(p, r, lead) == []
  {
    var run := filler + Preamble(n);
    PreambleIsNoStart(p, filler, n);
    PreambleTrails(filler, n);
    assert [] + run == run;
    HuntCounts(p, r, [], run);
    FedAppend(p, r, run, [SFD]);
    FedOne(p, Fed(p, r, run), SFD);
  }

  lemma FedOne(p: Params, r: Regs, d: bv8)
    ensures Fed(p, r, [d]) == NextRegs(p, r, d) && ShownBy(p, r, [d]) == Shown(p, r, d)
  {
    hide NextRegs, Shown;
    assert [d][1..] == [];
    assert Fed(p, r, [d]) == Fed(p, NextRegs(p, r, d), []);
    assert ShownBy(p, r, [d]) == Shown(p, r, d) + ShownBy(p, NextRegs(p, r, d), []);
  }

  // ---------------------------------------------------------------------------------------------
  // The header
  // ---------------------------------------------------------------------------------------------

  function Shift48(w: bv48, s: seq<bv8>): bv48
    decreases |s|
  {
    if s == [] then w else Shift48(Push48(w, s[0]), s[1..])
  }

  /** An address as the bytes spell it, the first byte on top. */
  function Address(b: seq<bv8>): bv48
    requires |b| == 6
  {
    ((b[0] as bv48) << 40) | ((b[1] as bv48) << 32) | ((b[2] as bv48) << 24) | ((b[3] as bv48) << 16)
    | ((b[4] as bv48) << 8) | (b[5] as bv48)
  }

  function Pair(a: bv8, b: bv8): bv16 { ((a as bv16) << 8) | (b as bv16) }

  lemma SixPushes(w: bv48, a: bv8, b: bv8, c: bv8, d: bv8, e: bv8, f: bv8)
    ensures Push48(Push48(Push48(Push48(Push48(Push48(w, a), b), c), d), e), f) == Address([a, b, c, d, e, f])
  {
  }

  lemma TwoPushes(w: bv16, a: bv8, b: bv8)
    ensures Push16(Push16(w, a), b) == Pair(a, b)
  {
  }

  lemma ShiftsInAddress(w: bv48, s: seq<bv8>)
    requires |s| == 6
    ensures Shift48(w, s) == Address(s)
  {
    hide Push48, Address, Shift48;
    var a, b, c, d, e, f := s[0], s[1], s[2], s[3], s[4], s[5];
    assert s == [a, b, c, d, e, f];
    SixPushes(w, a, b, c, d, e, f);
    var x := Push48(Push48(Push48(w, a), b), c);
    ShiftThree(w, a, b, c, [d, e, f]);
    ShiftThree(x, d, e, f, []);
    assert s == [a, b, c] + [d, e, f] && [d, e, f] == [d, e, f] + [];
    ShiftNone(Push48(Push48(Push48(x, d), e), f));
  }

  lemma ShiftThree(w: bv48, a: bv8, b: bv8, c: bv8, rest: seq<bv8>)
    ensures Shift48(w, [a, b, c] + rest) == Shift48(Push48(Push48(Push48(w, a), b), c), rest)
  {
    hide Push48;
    assert ([a, b, c] + rest)[1..] == [b, c] + rest && ([b, c] + rest)[1..] == [c] + rest && ([c] + rest)[1..] == rest;
    assert Shift48(Push48(w, a), [b, c] + rest) == Shift48(Push48(Push48(w, a), b), [c] + rest);
  }

  lemma ShiftNone(w: bv48)
    ensures Shift48(w, []) == w
  {
  }

  /** The counters after `s` more in-frame bytes. */
  function CountedBy(r: Regs, s: seq<bv8>): Regs
    requires r.frameBytes + |s| < 0x1_0000
  {
    r.(crc := Register(r.crc, s), frameBytes := r.frameBytes + |s|)
  }

  lemma {:induction false} DstField(p: Params, r: Regs, s: seq<bv8>)
    requires r.phase == DST && r.hdrCnt + |s| == 6 && s != [] && r.frameBytes + |s| < 0x1_0000
    ensures Fed(p, r, s) == CountedBy(r, s).(phase := SRC, hdrCnt := 0, dstSr := Shift48(r.dstSr, s))
    ensures ShownBy(p, r, s) == []
    decreases |s|
  {
    hide ByteStep, Push48, PlLast, ReportOf, Closes;
    if |s| == 1 {
      FedOne(p, r, s[0]);
      assert s == [s[0]] && s[1..] == [];
      RegisterOne(r.crc, s[0]);
    } else {
      DstField(p, NextRegs(p, r, s[0]), s[1..]);
    }
  }

  lemma {:induction false} SrcField(p: Params, r: Regs, s: seq<bv8>)
    requires r.phase == SRC && r.hdrCnt + |s| == 6 && s != [] && r.frameBytes + |s| < 0x1_0000
    ensures Fed(p, r, s) == CountedBy(r, s).(phase := TYPE, hdrCnt := 0, srcSr := Shift48(r.srcSr, s))
    ensures ShownBy(p, r, s) == []
    decreases |s|
  {
    hide ByteStep, Push48, PlLast, ReportOf, Closes;
    if |s| == 1 {
      FedOne(p, r, s[0]);
      assert s == [s[0]] && s[1..] == [];
      RegisterOne(r.crc, s[0]);
    } else {
      SrcField(p, NextRegs(p, r, s[0]), s[1..]);
    }
  }

  // ---------------------------------------------------------------------------------------------
  // Frames
  // ---------------------------------------------------------------------------------------------

  datatype Tag = Untagged | Tagged(tciHigh: bv8, tciLow: bv8)

  /** A frame as it is sent: addresses, an optional 802.1Q tag, the type or length field, and what follows it. */
  datatype Frame = Frame(dst: seq<bv8>, src: seq<bv8>, tag: Tag, typeHigh: bv8, typeLow: bv8, rest: seq<bv8>)
  {
    predicate Valid() {
      |dst| == 6 && |src| == 6 && (tag.Untagged? ==> Type() != 0x8100)
    }

    function Type(): bv16 { Pair(typeHigh, typeLow) }

    function TagBytes(): seq<bv8> { if tag.Tagged? then [0x81, 0x00, tag.tciHigh, tag.tciLow] else [] }

    function Header(): seq<bv8> { dst + src + TagBytes() + [typeHigh, typeLow] }

    function Body(): seq<bv8> { Header() + rest }

    predicate HasLength() { Type() <= 1500 }

    /** What belongs to the payload: padding beyond an 802.3 length does not. */
    function Payload(): seq<bv8> {
      if HasLength() && Type() as int < |rest| then rest[..Type() as int] else rest
    }
  }

  /** The registers once the header of `f` is in. */
  predicate HeaderIn(r: Regs, f: Frame)
    requires f.Valid()
  {
    && r.phase == PAYLOAD && r.crc == Register(INIT, f.Header()) && r.frameBytes == |f.Header()|
    && r.plCnt == 0 && r.dlyCnt == 0 && r.lenMode == f.HasLength() && r.lenField == f.Type() as int
    && r.dstSr == Address(f.dst) && r.srcSr == Address(f.src) && r.typeSr == f.Type()
    && r.vlanSeen == f.tag.Tagged? && (f.tag.Tagged? ==> r.tciSr == Pair(f.tag.tciHigh, f.tag.tciLow))
  }

  /** Two bytes of a type field. */
  lemma TypePair(p: Params, r: Regs, a: bv8, b: bv8)
    requires r.phase == TYPE && r.hdrCnt == 0 && r.frameBytes + 2 < 0x1_0000
    ensures var f := Fed(p, r, [a, b]);
            && f == CountedBy(r, [a, b]).(phase := f.phase, typeSr := Pair(a, b), vlanSeen := f.vlanSeen,
                                          lenMode := f.lenMode, lenField := f.lenField)
            && (if !r.vlanSeen && Pair(a, b) == VLAN_TPID then
                  f.phase == VLAN && f.vlanSeen && f.lenMode == r.lenMode
                else f.phase == PAYLOAD && f.vlanSeen == r.vlanSeen && f.lenMode == (Pair(a, b) <= MAX_LEN_FIELD)
                     && f.lenField == Pair(a, b) as int)
    ensures ShownBy(p, r, [a, b]) == []
  {
    hide ByteStep, Push16, PlLast, ReportOf, Closes, Pair;
    TwoPushes(r.typeSr, a, b);
    TwoBytes(p, r, a, b);
  }

  lemma TciPair(p: Params, r: Regs, a: bv8, b: bv8)
    requires r.phase == VLAN && r.hdrCnt == 0 && r.frameBytes + 2 < 0x1_0000
    ensures Fed(p, r, [a, b]) == CountedBy(r, [a, b]).(phase := TYPE, tciSr := Pair(a, b))
    ensures ShownBy(p, r, [a, b]) == []
  {
    hide ByteStep, Push16, PlLast, ReportOf, Closes, Pair;
    TwoPushes(r.tciSr, a, b);
    TwoBytes(p, r, a, b);
  }

  lemma TwoBytes(p: Params, r: Regs, a: bv8, b: bv8)
    ensures Fed(p, r, [a, b]) == NextRegs(p, NextRegs(p, r, a), b)
    ensures ShownBy(p, r, [a, b]) == Shown(p, r, a) + Shown(p, NextRegs(p, r, a), b)
    ensures Register(r.crc, [a, b]) == ByteStep(ByteStep(r.crc, a), b)
  {
    hide NextRegs, Shown, ByteStep;
    assert [a, b] == [a] + [b];
    FedAppend(p, r, [a], [b]);
    FedOne(p, r, a);
    FedOne(p, NextRegs(p, r, a), b);
    RegisterAppend(r.crc, [a], [b]);
    RegisterOne(r.crc, a);
    RegisterOne(ByteStep(r.crc, a), b);
  }

  lemma AddressesIn(p: Params, r: Regs, f: Frame)
    requires f.Valid() && AtFrame(r)
    ensures var s := f.dst + f.src;
            && Fed(p, r, s) == CountedBy(r, s).(phase := TYPE, dstSr := Address(f.dst), srcSr := Address(f.src))
            && ShownBy(p, r, s) == []
  {
    hide Register, Address;
    FedAppend(p, r, f.dst, f.src);
    DstField(p, r, f.dst);
    SrcField(p, Fed(p, r, f.dst), f.src);
    ShiftsInAddress(r.dstSr, f.dst);
    ShiftsInAddress(r.srcSr, f.src);
    RegisterAppend(r.crc, f.dst, f.src);
  }

  lemma TagIn(p: Params, r: Regs, f: Frame)
    requires f.Valid() && r.phase == TYPE && r.hdrCnt == 0 && !r.vlanSeen && r.frameBytes == 12
    ensures var s, g := f.TagBytes(), Fed(p, r, f.TagBytes());
            && g == CountedBy(r, s).(vlanSeen := f.tag.Tagged?, tciSr := g.tciSr, typeSr := g.typeSr, lenField := g.lenField)
            && (f.tag.Tagged? ==> g.tciSr == Pair(f.tag.tciHigh, f.tag.tciLow))
            && ShownBy(p, r, s) == []
  {
    hide ByteStep, Pair;
    if f.tag.Tagged? {
      var t := f.TagBytes();
      assert t == [t[0], t[1]] + [t[2], t[3]];
      assert Pair(0x81, 0x00) == VLAN_TPID by { TpidIs(); }
      FedAppend(p, r, [t[0], t[1]], [t[2], t[3]]);
      TypePair(p, r, t[0], t[1]);
      TciPair(p, Fed(p, r, [t[0], t[1]]), t[2], t[3]);
      RegisterAppend(r.crc, [t[0], t[1]], [t[2], t[3]]);
    }
  }

  lemma TpidIs()
    ensures Pair(0x81, 0x00) == VLAN_TPID
  {
  }

  /** The registers once `s`, the tag if there is one and the type field, are in, from `r` at the type field. */
  predicate TypeIn(r: Regs, g: Regs, f: Frame, s: seq<bv8>)
    requires f.Valid()
  {
    && g.phase == PAYLOAD && g.crc == Register(r.crc, s) && g.frameBytes == r.frameBytes + |s|
    && g.plCnt == r.plCnt && g.dlyCnt == r.dlyCnt && g.lenMode == f.HasLength() && g.lenField == f.Type() as int
    && g.dstSr == r.dstSr && g.srcSr == r.srcSr && g.typeSr == f.Type()
    && g.vlanSeen == f.tag.Tagged? && (f.tag.Tagged? ==> g.tciSr == Pair(f.tag.tciHigh, f.tag.tciLow))
  }

  lemma TypeRead(p: Params, r: Regs, f: Frame)
    requires f.Valid() && r.phase == TYPE && r.hdrCnt == 0 && !r.vlanSeen && r.frameBytes == 12
    ensures var s := f.TagBytes() + [f.typeHigh, f.typeLow];
            TypeIn(r, Fed(p, r, s), f, s) && ShownBy(p, r, s) == []
  {
    hide Register, Pair, Fed, ShownBy;
    var tag, ty := f.TagBytes(), [f.typeHigh, f.typeLow];
    FedAppend(p, r, tag, ty);
    TagIn(p, r, f);
    var g := Fed(p, r, tag);
    assert |tag| <= 4 && g.frameBytes == 12 + |tag| && g.crc == Register(r.crc, tag) && g.phase == TYPE && g.hdrCnt == 0;
    TypePair(p, g, f.typeHigh, f.typeLow);
    RegisterAppend(r.crc, tag, ty);
    TypeFields(r, g, Fed(p, g, ty), f, tag, ty);
  }

  lemma TypeFields(r: Regs, g: Regs, h: Regs, f: Frame, tag: seq<bv8>, ty: seq<bv8>)
    requires f.Valid() && g.frameBytes + |ty| < 0x1_0000 && r.frameBytes + |tag| < 0x1_0000
    requires g == CountedBy(r, tag).(vlanSeen := f.tag.Tagged?, tciSr := g.tciSr, typeSr := g.typeSr, lenField := g.lenField)
    requires f.tag.Tagged? ==> g.tciSr == Pair(f.tag.tciHigh, f.tag.tciLow)
    requires h == CountedBy(g, ty).(phase := PAYLOAD, typeSr := f.Type(), lenMode := f.HasLength(), lenField := f.Type() as int)
    requires Register(r.crc, tag + ty) == Register(Register(r.crc, tag), ty)
    ensures TypeIn(r, h, f, tag + ty)
  {
    hide Register, Pair;
  }

  lemma HeaderRead(p: Params, r: Regs, f: Frame)
    requires f.Valid() && AtFrame(r)
    ensures HeaderIn(Fed(p, r, f.Header()), f) && ShownBy(p, r, f.Header()) == []
  {
    hide Register, Address, Pair, Fed, ShownBy;
    var ads, more := f.dst + f.src, f.TagBytes() + [f.typeHigh, f.typeLow];
    assert f.Header() == ads + more;
    FedAppend(p, r, ads, more);
    AddressesIn(p, r, f);
    TypeRead(p, Fed(p, r, ads), f);
    RegisterAppend(r.crc, ads, more);
  }

  // ---------------------------------------------------------------------------------------------
  // Payload and frame check sequence
  // ---------------------------------------------------------------------------------------------

  function Shift32(w: bv32, s: seq<bv8>): bv32
    decreases |s|
  {
    if s == [] then w else Push32(Shift32(w, s[..|s| - 1]), s[|s| - 1])
  }

  lemma FourPushes(w: bv32, a: bv8, b: bv8, c: bv8, d: bv8)
    ensures Oldest(Push32(Push32(Push32(Push32(w, a), b), c), d)) == a
  {
  }

  /** The holdback keeps four bytes: what falls out is the fourth from the end. */
  lemma HoldsFour(w: bv32, s: seq<bv8>)
    requires |s| >= 4
    ensures Oldest(Shift32(w, s)) == s[|s| - 4]
  {
    hide Push32, Oldest;
    var n := |s|;
    FourPushes(Shift32(w, s[..n - 4]), s[n - 4], s[n - 3], s[n - 2], s[n - 1]);
    assert s[..n - 1][..n - 2] == s[..n - 2] && s[..n - 2][..n - 3] == s[..n - 3] && s[..n - 3][..n - 4] == s[..n - 4];
    assert Shift32(w, s) == Push32(Shift32(w, s[..n - 1]), s[n - 1]);
    assert Shift32(w, s[..n - 1]) == Push32(Shift32(w, s[..n - 2]), s[n - 2]);
    assert Shift32(w, s[..n - 2]) == Push32(Shift32(w, s[..n - 3]), s[n - 3]);
    assert Shift32(w, s[..n - 3]) == Push32(Shift32(w, s[..n - 4]), s[n - 4]);
  }

  /** How many payload bytes have left the holdback after `j` bytes in the payload state. */
  function Emitted(h: Regs, j: nat): nat {
    if j <= 4 then 0 else if h.lenMode && h.lenField < j - 4 then h.lenField else j - 4
  }

  /** The registers after the first `j` bytes of `x`, from `h` at the end of the header. */
  predicate Within(h: Regs, r: Regs, x: seq<bv8>, j: nat)
    requires j <= |x| && h.frameBytes + |x| < 0x1_0000
  {
    && h.phase == PAYLOAD && h.plCnt == 0 && h.dlyCnt == 0
    && r == h.(crc := Register(h.crc, x[..j]), frameBytes := h.frameBytes + j, plCnt := Emitted(h, j),
               dly := Shift32(h.dly, x[..j]), dlyCnt := if j < 4 then j else 4)
  }

  lemma RegisterNext(c: bv32, x: seq<bv8>, j: nat)
    requires j < |x|
    ensures Register(c, x[..j + 1]) == ByteStep(Register(c, x[..j]), x[j])
  {
    hide ByteStep, Register;
    assert x[..j + 1] == x[..j] + [x[j]];
    RegisterAppend(c, x[..j], [x[j]]);
    RegisterOne(Register(c, x[..j]), x[j]);
  }

  /** What the combinational logic says of byte `j` of the payload state. */
  lemma PayloadLogic(p: Params, h: Regs, r: Regs, x: seq<bv8>, j: nat)
    requires j < |x| && h.frameBytes + |x| < 0x1_0000 && Within(h, r, x, j)
    ensures PlCntNext(r) == Emitted(h, j + 1)
    ensures CrcHit(r, x[j]) <==> Register(h.crc, x[..j + 1]) == RESIDUE
    ensures Oversize(p, r) <==> h.frameBytes + j + 1 > p.maxFrameBytes
    ensures PlEmit(r) <==> Emitted(h, j) < Emitted(h, j + 1)
    ensures PlEmit(r) ==> j >= 4 && Emitted(h, j) == j - 4
  {
    hide ByteStep, Register, Push32, Oldest, Shift32;
    RegisterNext(h.crc, x, j);
  }

  /** A byte of the payload state: what leaves the holdback, and the registers after it. */
  lemma PayloadStep(p: Params, h: Regs, r: Regs, x: seq<bv8>, j: nat)
    requires j < |x| && h.frameBytes + |x| < 0x1_0000 && Within(h, r, x, j)
    ensures PlEmit(r) ==> j >= 4 && Emitted(h, j) == j - 4 && Oldest(r.dly) == x[j - 4]
    ensures !Closes(p, r, x[j]) ==> Within(h, NextRegs(p, r, x[j]), x, j + 1)
    ensures Closes(p, r, x[j]) ==> Ready(NextRegs(p, r, x[j]))
  {
    hide ByteStep, Register, Push32, Oldest, Shift32, PlCntNext, Closes, PlEmit, Emitted;
    PayloadLogic(p, h, r, x, j);
    RegisterNext(h.crc, x, j);
    ShiftNext(h.dly, x, j);
    if j >= 4 { HoldsFour(h.dly, x[..j]); }
  }

  lemma ShiftNext(w: bv32, x: seq<bv8>, j: nat)
    requires j < |x|
    ensures Shift32(w, x[..j + 1]) == Push32(Shift32(w, x[..j]), x[j])
  {
    hide Push32;
    assert x[..j + 1][..j] == x[..j];
  }

  /** The beats that carry `pl[i..]`, the last of them marked if the payload is known to end there. */
  function Beats(pl: seq<bv8>, i: nat, ended: bool): seq<Event>
    decreases |pl| - i
  {
    if i >= |pl| then [] else [Beat(pl[i], ended && i == |pl| - 1)] + Beats(pl, i + 1, ended)
  }

  /** The report of an attempt that ended `n` bytes after the header `h`. */
  function Result(p: Params, h: Regs, n: nat, good: bool): Report
    requires h.frameBytes + n < 0x1_0000
  {
    Report(h.dstSr, h.srcSr, h.typeSr, Emitted(h, n), h.vlanSeen, h.tciSr, good,
           good && h.frameBytes + n < p.minFrameBytes, !good)
  }

  /** No proper prefix of `x` closes the frame: none ends in its own check sequence, and none is too long. */
  ghost predicate OpenUntilEnd(p: Params, h: Regs, x: seq<bv8>) {
    && h.frameBytes + |x| <= p.maxFrameBytes + 1
    && forall k :: 0 < k < |x| ==> Register(h.crc, x[..k]) != RESIDUE
  }

  predicate Closing(p: Params, h: Regs, x: seq<bv8>) {
    Register(h.crc, x) == RESIDUE || h.frameBytes + |x| > p.maxFrameBytes
  }

  /** Whether the last payload byte is marked: the frame closed on it, or an 802.3 length was reached. */
  predicate Marked(h: Regs, x: seq<bv8>) {
    Register(h.crc, x) == RESIDUE || (h.lenMode && Emitted(h, |x|) == h.lenField)
  }

  function Leaves(h: Regs, x: seq<bv8>): seq<bv8> { x[..Min(Emitted(h, |x|), |x|)] }

  function Min(a: nat, b: nat): nat { if a <= b then a else b }

  /** The beat that byte `j` of the payload state shows, if any, is the next one of the payload. */
  lemma BeatAt(p: Params, h: Regs, r: Regs, x: seq<bv8>, j: nat)
    requires j < |x| && h.frameBytes + |x| < 0x1_0000 && Within(h, r, x, j) && OpenUntilEnd(p, h, x) && Closing(p, h, x)
    ensures var beat := if PlEmit(r) then [Beat(Oldest(r.dly), PlLast(r, x[j]))] else [];
            beat + Beats(Leaves(h, x), Emitted(h, j + 1), Marked(h, x)) == Beats(Leaves(h, x), Emitted(h, j), Marked(h, x))
  {
    hide NextRegs, Register, Oldest, CrcHit, Oversize, PlEmit, PlCntNext, Closing, ReportOf;
    PayloadLogic(p, h, r, x, j);
    PayloadStep(p, h, r, x, j);
    assert j == |x| - 1 ==> x[..j + 1] == x;
  }

  /** The attempt ends with the last byte of `x`, and reports then. */
  lemma ClosesAt(p: Params, h: Regs, r: Regs, x: seq<bv8>, j: nat)
    requires j < |x| && h.frameBytes + |x| < 0x1_0000 && Within(h, r, x, j) && OpenUntilEnd(p, h, x) && Closing(p, h, x)
    ensures r.phase == PAYLOAD && (Closes(p, r, x[j]) <==> j == |x| - 1)
    ensures j == |x| - 1 ==> ReportOf(p, r, x[j]) == Result(p, h, |x|, Register(h.crc, x) == RESIDUE)
    ensures j == |x| - 1 ==> Beats(Leaves(h, x), Emitted(h, j + 1), Marked(h, x)) == []
  {
    hide NextRegs, Register, Oldest, CrcHit, Oversize, PlEmit, PlCntNext, PlLast, Marked, Beats, Leaves;
    PayloadLogic(p, h, r, x, j);
    assert j == |x| - 1 ==> x[..j + 1] == x;
    NothingLeft(h, x, Marked(h, x));
  }

  lemma NothingLeft(h: Regs, x: seq<bv8>, ended: bool)
    ensures Beats(Leaves(h, x), Emitted(h, |x|), ended) == []
  {
  }

  /** What byte `j` of the payload state shows is the next part of what the attempt shows. */
  lemma StepShows(p: Params, h: Regs, r: Regs, x: seq<bv8>, j: nat)
    requires j < |x| && h.frameBytes + |x| < 0x1_0000 && Within(h, r, x, j) && OpenUntilEnd(p, h, x) && Closing(p, h, x)
    ensures var pl, ended, good := Leaves(h, x), Marked(h, x), Register(h.crc, x) == RESIDUE;
            if j == |x| - 1 then Shown(p, r, x[j]) == Beats(pl, Emitted(h, j), ended) + [Done(Result(p, h, |x|, good))]
            else Shown(p, r, x[j]) + Beats(pl, Emitted(h, j + 1), ended) == Beats(pl, Emitted(h, j), ended)
  {
    hide NextRegs, Register, Oldest, PlEmit, PlLast, Marked, Within, OpenUntilEnd, Closing, Closes, Leaves, Emitted, Beats;
    ClosesAt(p, h, r, x, j);
    BeatAt(p, h, r, x, j);
  }

  /** From the header on, an attempt emits exactly the payload and reports once, at the first byte that closes it. */
  lemma {:induction false} PayloadRun(p: Params, h: Regs, r: Regs, x: seq<bv8>, j: nat)
    requires j < |x| && h.frameBytes + |x| < 0x1_0000 && Within(h, r, x, j) && OpenUntilEnd(p, h, x) && Closing(p, h, x)
    ensures ShownBy(p, r, x[j..]) == Beats(Leaves(h, x), Emitted(h, j), Marked(h, x))
                                     + [Done(Result(p, h, |x|, Register(h.crc, x) == RESIDUE))]
    ensures Ready(Fed(p, r, x[j..]))
    decreases |x| - j
  {
    hide NextRegs, Register, Shown, Closes, CrcHit, PlEmit, Within, Closing, Marked, Leaves, Emitted, OpenUntilEnd, Beats;
    PayloadStep(p, h, r, x, j);
    ClosesAt(p, h, r, x, j);
    StepShows(p, h, r, x, j);
    var s := NextRegs(p, r, x[j]);
    assert x[j..][0] == x[j] && x[j..][1..] == x[j + 1..];
    if j == |x| - 1 {
      assert x[j + 1..] == [] && ShownBy(p, s, []) == [];
    } else {
      PayloadRun(p, h, s, x, j + 1);
    }
  }

  // ---------------------------------------------------------------------------------------------
  // Whole frames
  // ---------------------------------------------------------------------------------------------

  /** `t` ends in the check sequence of what comes before. */
  predicate EndsInFcs(t: seq<bv8>) { |t| >= 4 && t[|t| - 4..] == Fcs(t[..|t| - 4]) }

  /** The frame as it is sent, check sequence included. */
  function OnWire(f: Frame): seq<bv8> { f.Body() + Fcs(f.Body()) }

  /** No earlier prefix that reaches into the payload happens to end in its own check sequence. */
  ghost predicate NoEarlyFcs(f: Frame) {
    forall k :: |f.Header()| < k < |OnWire(f)| ==> !EndsInFcs(OnWire(f)[..k])
  }

  /** The report of `f`: its addresses, type, tag and payload length, and whether it is a good frame. */
  predicate Reports(p: Params, f: Frame, r: Report, good: bool)
    requires f.Valid()
  {
    && r.dstMac == Address(f.dst) && r.srcMac == Address(f.src) && r.ethertype == f.Type()
    && r.vlanValid == f.tag.Tagged? && (f.tag.Tagged? ==> r.vlanTci == Pair(f.tag.tciHigh, f.tag.tciLow))
    && r.fcsOk == good && r.errOversize == !good && r.errRunt == (good && |OnWire(f)| < p.minFrameBytes)
    && (good ==> r.payloadBytes == |f.Payload()|)
  }

  /** The register after part of the payload state reads the residue exactly on a check sequence. */
  lemma ResidueAt(f: Frame, k: nat)
    requires f.Valid() && |f.Header()| < k <= |OnWire(f)|
    ensures var x := OnWire(f)[|f.Header()|..];
            Register(Register(INIT, f.Header()), x[..k - |f.Header()|]) == RESIDUE <==> EndsInFcs(OnWire(f)[..k])
  {
    hide Register, Fcs;
    var w, m := OnWire(f), |f.Header()|;
    assert w[..k] == f.Header() + w[m..][..k - m];
    RegisterAppend(INIT, f.Header(), w[m..][..k - m]);
    ResidueIffFcs(w[..k]);
  }

  lemma {:induction false} BeatsCount(pl: seq<bv8>, i: nat, ended: bool)
    requires i <= |pl|
    ensures |Beats(pl, i, ended)| == |pl| - i
    decreases |pl| - i
  {
    if i < |pl| { BeatsCount(pl, i + 1, ended); }
  }

  /** What the payload state makes of `f`, cut after `k` bytes: the frame itself, or a frame found too long. */
  lemma FrameBytes(p: Params, h: Regs, f: Frame, k: nat)
    requires f.Valid() && HeaderIn(h, f) && NoEarlyFcs(f)
    requires |f.Header()| < k <= |OnWire(f)| && k < 0x1_0000 && k <= p.maxFrameBytes + 1
    requires k == |OnWire(f)| || k > p.maxFrameBytes
    ensures var x, good := OnWire(f)[|f.Header()|..k], k == |OnWire(f)|;
            && ShownBy(p, h, x) == Beats(Leaves(h, x), 0, Marked(h, x)) + [Done(Result(p, h, |x|, good))]
            && Ready(Fed(p, h, x))
  {
    hide Register, Fcs, Emitted, Leaves, Marked, Fed, ShownBy, EndsInFcs, Address, Pair;
    var w, m := OnWire(f), |f.Header()|;
    var x := w[m..k];
    assert x == w[m..][..k - m];
    ResidueAt(f, k);
    assert w[..|w|] == w;
    assert EndsInFcs(w) by { OwnFcs(f.Body()); }
    forall i | 0 < i < |x| ensures Register(h.crc, x[..i]) != RESIDUE {
      assert x[..i] == w[m..][..i];
      ResidueAt(f, m + i);
    }
    assert x[..0] == [] && x[0..] == x;
    assert Within(h, h, x, 0) by { AtStart(h, f, x); }
    EmittedNone(h);
    PayloadRun(p, h, h, x, 0);
  }

  lemma EmittedNone(h: Regs)
    ensures Emitted(h, 0) == 0
  {
  }

  lemma OwnFcs(body: seq<bv8>)
    ensures EndsInFcs(body + Fcs(body))
  {
    hide Fcs;
    var t := body + Fcs(body);
    assert t[|t| - 4..] == Fcs(body) && t[..|t| - 4] == body;
  }

  lemma AtStart(h: Regs, f: Frame, x: seq<bv8>)
    requires f.Valid() && HeaderIn(h, f) && h.frameBytes + |x| < 0x1_0000
    ensures Within(h, h, x, 0)
  {
    assert x[..0] == [];
  }

  /** What leaves the holdback over a whole frame is its payload, and it is marked. */
  lemma WholePayload(h: Regs, f: Frame)
    requires f.Valid() && HeaderIn(h, f)
    ensures Leaves(h, OnWire(f)[|f.Header()|..]) == f.Payload()
  {
    hide Register, Fcs, Address, Pair;
    var x := OnWire(f)[|f.Header()|..];
    assert x == f.rest + Fcs(f.Body());
    assert f.Payload() == x[..|f.Payload()|];
  }

  /** What goes before a frame: any filler that holds no start of a frame, and enough preamble. */
  datatype Sent = Sent(filler: seq<bv8>, preamble: nat, frame: Frame)
  {
    function Lead(): seq<bv8> { filler + Preamble(preamble) + [0xD5] }
  }

  ghost predicate Clean(p: Params, s: Sent) {
    && s.frame.Valid() && NoStart(p, s.filler) && s.preamble >= p.minPreambleLen && NoEarlyFcs(s.frame)
    && |OnWire(s.frame)| < 0x1_0000
  }

  /** `evs` is the payload of `f`, marked on its last byte, and then its report. */
  predicate Extracts(p: Params, f: Frame, evs: seq<Event>)
    requires f.Valid()
  {
    && |evs| == |f.Payload()| + 1 && evs[..|f.Payload()|] == Beats(f.Payload(), 0, true)
    && evs[|f.Payload()|].Done? && Reports(p, f, evs[|f.Payload()|].report, true)
  }

  lemma ResultReports(p: Params, h: Regs, f: Frame, k: nat)
    requires f.Valid() && HeaderIn(h, f) && |f.Header()| < k <= |OnWire(f)| && k < 0x1_0000
    ensures Reports(p, f, Result(p, h, k - |f.Header()|, k == |OnWire(f)|), k == |OnWire(f)|)
  {
    hide Fcs, Address, Pair, Register;
    if k == |OnWire(f)| { WholePayload(h, f); }
  }

  lemma WholeMarked(h: Regs, f: Frame)
    requires f.Valid() && HeaderIn(h, f)
    ensures Marked(h, OnWire(f)[|f.Header()|..])
  {
    hide Register, EndsInFcs, Fcs;
    var w, m := OnWire(f), |f.Header()|;
    ResidueAt(f, |w|);
    OwnFcs(f.Body());
    assert w[..|w|] == w && w[m..][..|w| - m] == w[m..];
  }

  /** From the registers at the header's end to the result. */
  lemma FrameResult(p: Params, h: Regs, f: Frame)
    requires f.Valid() && HeaderIn(h, f) && NoEarlyFcs(f) && |OnWire(f)| < 0x1_0000
    requires |OnWire(f)| <= p.maxFrameBytes + 1
    ensures var x := OnWire(f)[|f.Header()|..]; Extracts(p, f, ShownBy(p, h, x)) && Ready(Fed(p, h, x))
  {
    hide Fcs, Fed, ShownBy, Beats, HeaderIn, Reports, Leaves, Marked, Result, NoEarlyFcs;
    var w, m := OnWire(f), |f.Header()|;
    var x := w[m..];
    assert x == w[m..|w|];
    FrameBytes(p, h, f, |w|);
    WholePayload(h, f);
    WholeMarked(h, f);
    ResultReports(p, h, f, |w|);
    BeatsCount(f.Payload(), 0, true);
    var beats := Beats(f.Payload(), 0, true);
    assert ShownBy(p, h, x)[..|beats|] == beats;
  }

  /** Up to the first byte after the header. */
  lemma LeadAndHeader(p: Params, r: Regs, s: Sent)
    requires Ready(r) && Clean(p, s)
    ensures var t := s.Lead() + s.frame.Header();
            HeaderIn(Fed(p, r, t), s.frame) && ShownBy(p, r, t) == []
  {
    hide Fed, ShownBy, HeaderIn, NoStart, NoEarlyFcs, AtFrame;
    FedAppend(p, r, s.Lead(), s.frame.Header());
    Locks(p, r, s.filler, s.preamble);
    HeaderRead(p, Fed(p, r, s.Lead()), s.frame);
  }

  /** From HUNT: filler, preamble, delimiter and a frame of at most MAX_FRAME_BYTES, or one more, give exactly its
      payload and one report, and the extractor is ready for the next frame. */
  lemma FrameExtracted(p: Params, r: Regs, s: Sent)
    requires Ready(r) && Clean(p, s) && |OnWire(s.frame)| <= p.maxFrameBytes + 1
    ensures var t := s.Lead() + OnWire(s.frame);
            Extracts(p, s.frame, ShownBy(p, r, t)) && Ready(Fed(p, r, t))
  {
    hide Fed, ShownBy, HeaderIn, NoStart, NoEarlyFcs, AtFrame, Extracts, Fcs;
    var head, tail := s.Lead() + s.frame.Header(), OnWire(s.frame)[|s.frame.Header()|..];
    assert s.Lead() + OnWire(s.frame) == head + tail;
    FedAppend(p, r, head, tail);
    LeadAndHeader(p, r, s);
    FrameResult(p, Fed(p, r, head), s.frame);
    assert ShownBy(p, r, head + tail) == ShownBy(p, Fed(p, r, head), tail);
  }

  /** The bytes of one frame after another. */
  function Sequence(ss: seq<Sent>): seq<bv8>
    decreases |ss|
  {
    if ss == [] then [] else ss[0].Lead() + OnWire(ss[0].frame) + Sequence(ss[1..])
  }

  /** `evs` is what each frame in turn gives, and nothing else. */
  ghost predicate ExtractsAll(p: Params, ss: seq<Sent>, evs: seq<Event>)
    requires forall i :: 0 <= i < |ss| ==> ss[i].frame.Valid()
    decreases |ss|
  {
    if ss == [] then evs == []
    else
      var n := |ss[0].frame.Payload()| + 1;
      n <= |evs| && Extracts(p, ss[0].frame, evs[..n]) && ExtractsAll(p, ss[1..], evs[n..])
  }

  /** Every frame is clean and no longer than the extractor takes. */
  ghost predicate AllClean(p: Params, ss: seq<Sent>) {
    forall i :: 0 <= i < |ss| ==> Clean(p, ss[i]) && |OnWire(ss[i].frame)| <= p.maxFrameBytes + 1
  }

  lemma {:induction false} SequenceExtracted(p: Params, r: Regs, ss: seq<Sent>)
    requires Ready(r) && AllClean(p, ss)
    ensures ExtractsAll(p, ss, ShownBy(p, r, Sequence(ss))) && Ready(Fed(p, r, Sequence(ss)))
    decreases |ss|
  {
    hide Fed, ShownBy, Ready, Fcs;
    if ss == [] {
      FedNothing(p, r);
    } else {
      var t := ss[0].Lead() + OnWire(ss[0].frame);
      FrameExtracted(p, r, ss[0]);
      SequenceExtracted(p, Fed(p, r, t), ss[1..]);
      FedAppend(p, r, t, Sequence(ss[1..]));
      var first, rest := ShownBy(p, r, t), ShownBy(p, Fed(p, r, t), Sequence(ss[1..]));
      assert (first + rest)[..|first|] == first && (first + rest)[|first|..] == rest;
    }
  }

  lemma FedNothing(p: Params, r: Regs)
    ensures Fed(p, r, []) == r && ShownBy(p, r, []) == []
  {
  }

  /** Extraction: however the stream of frames is interleaved with stalls, and whatever filler lies between them,
      the outputs show every frame's payload and report in turn, and nothing else. */
  lemma EveryFrameExtracted(p: Params, s: Ethernet, ss: seq<Sent>, ins: seq<Input>)
    requires Ready(s.regs) && Bytes(ins) == Sequence(ss) && AllClean(p, ss)
    ensures ExtractsAll(p, ss, Seen(p, s, ins)) && Ready(After(p, s, ins).regs)
  {
    hide Ready, AllClean, ExtractsAll;
    StallsDoNotMatter(p, s, ins);
    SequenceExtracted(p, s.regs, ss);
  }

  // ---------------------------------------------------------------------------------------------
  // The length limit
  // ---------------------------------------------------------------------------------------------

  datatype Verdict = None | First(report: Report)

  /** The first report among `evs`. */
  function FirstReport(evs: seq<Event>): Verdict
    decreases |evs|
  {
    if evs == [] then None else if evs[0].Done? then First(evs[0].report) else FirstReport(evs[1..])
  }

  lemma {:induction false} BeatsThenReport(pl: seq<bv8>, i: nat, ended: bool, r: Report, more: seq<Event>)
    ensures FirstReport(Beats(pl, i, ended) + [Done(r)] + more) == First(r)
    decreases |pl| - i
  {
    var evs := Beats(pl, i, ended) + [Done(r)] + more;
    if i < |pl| {
      BeatsThenReport(pl, i + 1, ended, r, more);
      assert evs[1..] == Beats(pl, i + 1, ended) + [Done(r)] + more;
    } else {
      assert evs[0] == Done(r);
    }
  }

  /** Whether a frame is reported good: exactly when it has at most MAX_FRAME_BYTES + 1 bytes. A frame one byte
      over the limit still closes on its check sequence, since the limit only counts for a byte that closes no frame. */
  lemma GoodIffWithinLimit(p: Params, r: Regs, s: Sent)
    requires Ready(r) && Clean(p, s) && |s.frame.Header()| <= p.maxFrameBytes < 0xFFFF
    ensures var first := FirstReport(ShownBy(p, r, s.Lead() + OnWire(s.frame)));
            && first.First?
            && (first.report.fcsOk <==> |OnWire(s.frame)| <= p.maxFrameBytes + 1)
            && (first.report.errOversize <==> |OnWire(s.frame)| > p.maxFrameBytes + 1)
            && Reports(p, s.frame, first.report, first.report.fcsOk)
  {
    hide Fed, ShownBy, HeaderIn, NoStart, NoEarlyFcs, Fcs, Beats, FirstReport, Leaves, Marked, Result;
    var f := s.frame;
    var w, m := OnWire(f), |f.Header()|;
    var k := Min(|w|, p.maxFrameBytes + 1);
    var head, x, rest := s.Lead() + f.Header(), w[m..k], w[k..];
    assert s.Lead() + w == head + (x + rest);
    LeadAndHeader(p, r, s);
    var h := Fed(p, r, head);
    FedAppend(p, r, head, x + rest);
    FedAppend(p, h, x, rest);
    FrameBytes(p, h, f, k);
    ResultReports(p, h, f, k);
    assert HeaderFits(h, f) by { HeaderLength(h, f); }
    assert ShownBy(p, r, s.Lead() + w) == ShownBy(p, h, x) + ShownBy(p, Fed(p, h, x), rest);
    BeatsThenReport(Leaves(h, x), 0, Marked(h, x), Result(p, h, |x|, k == |w|), ShownBy(p, Fed(p, h, x), rest));
  }

  predicate HeaderFits(h: Regs, f: Frame) { h.frameBytes == |f.Header()| }

  lemma HeaderLength(h: Regs, f: Frame)
    requires f.Valid() && HeaderIn(h, f)
    ensures HeaderFits(h, f)
  {
  }
}
