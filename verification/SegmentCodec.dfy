/** The TCP wire format: building a segment's bytes and parsing them back. */
module SegmentCodec {
  import opened SeqNum
  import opened EngineState

  datatype ParseError = TooShort | BadOffset(words: nat)
  datatype Result<+T> = Ok(value: T) | Err(error: ParseError)

  const OPT_EOL: byte := 0
  const OPT_NOP: byte := 1
  const OPT_MSS: byte := 2
  const OPT_WSCALE: byte := 3

  type Bytes = seq<byte>

  // ---------------------------------------------------------------------------------------------
  // Numbers and flags
  // ---------------------------------------------------------------------------------------------

  function Be16(x: u16): (b: Bytes)
    ensures |b| == 2
  {
    [x / 0x100, x % 0x100]
  }

  function Be32(x: u32): (b: Bytes)
    ensures |b| == 4
  {
    [x / 0x100_0000, x / 0x1_0000 % 0x100, x / 0x100 % 0x100, x % 0x100]
  }

  function Num16(a: byte, b: byte): u16 { a * 0x100 + b }

  function Num32(a: byte, b: byte, c: byte, d: byte): u32 { a * 0x100_0000 + b * 0x1_0000 + c * 0x100 + d }

  lemma Num16OfBe16(x: u16)
    ensures Num16(Be16(x)[0], Be16(x)[1]) == x
  {
  }

  lemma Num32OfBe32(x: u32)
    ensures Num32(Be32(x)[0], Be32(x)[1], Be32(x)[2], Be32(x)[3]) == x
  {
    assert x / 0x1_0000 == x / 0x100_0000 * 0x100 + x / 0x1_0000 % 0x100;
    assert x / 0x100 == x / 0x1_0000 * 0x100 + x / 0x100 % 0x100;
  }

  lemma Be16OfNum16(a: byte, b: byte)
    ensures Be16(Num16(a, b)) == [a, b]
  {
  }

  lemma Be32OfNum32(a: byte, b: byte, c: byte, d: byte)
    ensures Be32(Num32(a, b, c, d)) == [a, b, c, d]
  {
    var x := Num32(a, b, c, d);
    assert x / 0x100 == a * 0x1_0000 + b * 0x100 + c;
    assert x / 0x1_0000 == a * 0x100 + b;
    assert x / 0x100_0000 == a;
  }

  /** The flags as a number, FIN in the lowest bit. */
  function FlagByte(f: Flags): byte {
    Two(f.fin, Two(f.syn, Two(f.rst, Two(f.psh, Two(f.ack, Two(f.urg, Two(f.ece, Bit(f.cwr))))))))
  }

  function Two(low: bool, rest: nat): nat { Bit(low) + 2 * rest }

  predicate Low(b: nat) { b % 2 == 1 }

  function Half(b: nat): nat { b / 2 }

  function FlagsOf(b: byte): Flags {
    var b1 := Half(b); var b2 := Half(b1); var b3 := Half(b2); var b4 := Half(b3); var b5 := Half(b4); var b6 := Half(b5);
    Flags(Low(b), Low(b1), Low(b2), Low(b3), Low(b4), Low(b5), Low(b6), Low(Half(b6)))
  }

  lemma TwoSplits(low: bool, rest: nat)
    ensures Low(Two(low, rest)) == low && Half(Two(low, rest)) == rest
  {
  }

  lemma FlagsOfFlagByte(f: Flags)
    ensures FlagsOf(FlagByte(f)) == f
  {
    hide Two, Low, Half;
    var t7 := Bit(f.cwr); var t6 := Two(f.ece, t7); var t5 := Two(f.urg, t6); var t4 := Two(f.ack, t5);
    var t3 := Two(f.psh, t4); var t2 := Two(f.rst, t3); var t1 := Two(f.syn, t2);
    TwoSplits(f.fin, t1);
    TwoSplits(f.syn, t2);
    TwoSplits(f.rst, t3);
    TwoSplits(f.psh, t4);
    TwoSplits(f.ack, t5);
    TwoSplits(f.urg, t6);
    TwoSplits(f.ece, t7);
    TwoSplits(f.cwr, 0);
    assert t7 == Two(f.cwr, 0) by { LastBit(f.cwr); }
  }

  lemma LastBit(b: bool)
    ensures Bit(b) == Two(b, 0)
  {
  }

  // ---------------------------------------------------------------------------------------------
  // Options
  // ---------------------------------------------------------------------------------------------

  /** The option at the start of `o`, if a complete one is there: kind, length, body. */
  predicate StartsOption(o: Bytes) {
    |o| >= 2 && o[0] != OPT_EOL && o[0] != OPT_NOP && 2 <= o[1] <= |o|
  }

  /** The options in `o`, in order, up to the end-of-list option or the first malformed one. */
  function Options(o: Bytes): (r: seq<Bytes>)
    ensures forall i :: 0 <= i < |r| ==> IsOption(r[i])
    decreases |o|
  {
    if o == [] then []
    else if o[0] == OPT_NOP then Options(o[1..])
    else if StartsOption(o) then [o[..o[1]]] + Options(o[o[1]..])
    else []
  }

  predicate IsOption(t: Bytes) { StartsOption(t) && t[1] == |t| }

  predicate IsMss(t: Bytes) { IsOption(t) && t[0] == OPT_MSS && |t| == 4 }

  predicate IsWscale(t: Bytes) { IsOption(t) && t[0] == OPT_WSCALE && |t| == 3 }

  /** What a segment keeps of its options. */
  datatype Fields = Fields(mss: Option<u16>, wscale: Option<byte>, raw: Bytes)

  /** One more option: the last MSS and the last window scale count, the others are kept as they are. */
  function Take(f: Fields, t: Bytes): Fields
    requires IsOption(t)
  {
    if IsMss(t) then f.(mss := Some(Num16(t[2], t[3])))
    else if IsWscale(t) then f.(wscale := Some(t[2]))
    else f.(raw := f.raw + t)
  }

  function TakeAll(f: Fields, ts: seq<Bytes>): Fields
    requires forall i :: 0 <= i < |ts| ==> IsOption(ts[i])
    decreases |ts|
  {
    if ts == [] then f else TakeAll(Take(f, ts[0]), ts[1..])
  }

  const NOTHING := Fields(None, None, [])

  /** `_parse_options` */
  method ParseOptions(o: Bytes) returns (f: Fields)
    ensures f == TakeAll(NOTHING, Options(o))
  {
    var i, n := 0, |o|;
    f := NOTHING;
    while i < n
      invariant 0 <= i <= n
      invariant TakeAll(f, Options(o[i..])) == TakeAll(NOTHING, Options(o))
    {
      var kind, rest := o[i], o[i..];
      assert i + 1 < n ==> rest[1] == o[i + 1];
      if kind == OPT_EOL { break; }
      if kind == OPT_NOP {
        assert rest[1..] == o[i + 1..];
        i := i + 1;
        continue;
      }
      if i + 1 >= n { break; }
      var length := o[i + 1];
      if length < 2 || i + length > n { break; }
      var option := o[i..i + length];
      assert option == rest[..rest[1]] && rest[rest[1]..] == o[i + length..];
      assert Options(rest) == [option] + Options(o[i + length..]);
      if kind == OPT_MSS && length == 4 {
        f := f.(mss := Some(Num16(option[2], option[3])));
      } else if kind == OPT_WSCALE && length == 3 {
        f := f.(wscale := Some(option[2]));
      } else {
        f := f.(raw := f.raw + option);
      }
      i := i + length;
    }
  }

  function MssBytes(m: Option<u16>): Bytes { if m.Some? then [OPT_MSS, 4] + Be16(m.value) else [] }

  function WscaleBytes(w: Option<byte>): Bytes { if w.Some? then [OPT_WSCALE, 3, w.value] else [] }

  function OptionBytes(f: Fields): Bytes { MssBytes(f.mss) + WscaleBytes(f.wscale) + f.raw }

  function Nops(n: nat): Bytes { seq(n, _ => OPT_NOP) }

  /** Padded to a multiple of four bytes. */
  function Padded(o: Bytes): (r: Bytes)
    ensures |r| % 4 == 0 && |o| <= |r| < |o| + 4
  {
    o + Nops((4 - |o| % 4) % 4)
  }

  /** `_build_options` */
  method BuildOptions(s: Segment) returns (o: Bytes)
    ensures o == Padded(OptionBytes(FieldsOf(s)))
  {
    o := [];
    if s.mss.Some? { o := o + [OPT_MSS, 4] + Be16(s.mss.value); }
    if s.wscale.Some? { o := o + [OPT_WSCALE, 3, s.wscale.value]; }
    o := o + s.rawOptions;
    ghost var full := o;
    assert full == OptionBytes(FieldsOf(s));
    while |o| % 4 != 0
      invariant |full| <= |o| <= |Padded(full)|
      invariant o == full + Nops(|o| - |full|)
      decreases |Padded(full)| - |o|
    {
      o := o + [OPT_NOP];
      assert o == full + Nops(|o| - |full|);
    }
  }

  function FieldsOf(s: Segment): Fields { Fields(s.mss, s.wscale, s.rawOptions) }

  // ---------------------------------------------------------------------------------------------
  // Segments
  // ---------------------------------------------------------------------------------------------

  function Header(s: Segment, offset: byte): (h: Bytes)
    ensures |h| == 20
  {
    Be16(s.srcPort) + Be16(s.dstPort) + Be32(s.seqNo) + Be32(s.ackNo) + [offset, FlagByte(s.flags)]
    + Be16(s.window % 0x1_0000) + Be16(s.checksum) + Be16(s.urgentPtr)
  }

  /** The data offset byte for `n` bytes of options; the offset is cut to four bits. */
  function OffsetByte(n: nat): byte { (20 + n) / 4 % 16 * 16 }

  function Build(s: Segment): Bytes {
    var o := Padded(OptionBytes(FieldsOf(s)));
    Header(s, OffsetByte(|o|)) + o + s.payload
  }

  function HeaderLength(b: Bytes): nat
    requires |b| >= 20
  {
    b[12] / 16 * 4
  }

  function Parse(b: Bytes): Result<Segment> {
    if |b| < 20 then Err(TooShort)
    else
      var n := HeaderLength(b);
      if n < 20 || n > |b| then Err(BadOffset(b[12] / 16))
      else
        var f := TakeAll(NOTHING, Options(b[20..n]));
        Ok(Segment(Num16(b[0], b[1]), Num16(b[2], b[3]), Num32(b[4], b[5], b[6], b[7]), Num32(b[8], b[9], b[10], b[11]),
                   FlagsOf(b[13]), Num16(b[14], b[15]), Num16(b[16], b[17]), Num16(b[18], b[19]), b[n..],
                   f.mss, f.wscale, f.raw))
  }

  /** `build` */
  method BuildSegment(s: Segment) returns (b: Bytes)
    ensures b == Build(s)
  {
    var o := BuildOptions(s);
    var offset := (20 + |o|) / 4 % 16 * 16;
    b := Header(s, offset) + o + s.payload;
  }

  /** `parse` */
  method ParseSegment(b: Bytes) returns (r: Result<Segment>)
    ensures r == Parse(b)
  {
    if |b| < 20 { return Err(TooShort); }
    var n := b[12] / 16 * 4;
    if n < 20 || n > |b| { return Err(BadOffset(b[12] / 16)); }
    var f := ParseOptions(b[20..n]);
    return Ok(Segment(Num16(b[0], b[1]), Num16(b[2], b[3]), Num32(b[4], b[5], b[6], b[7]), Num32(b[8], b[9], b[10], b[11]),
                      FlagsOf(b[13]), Num16(b[14], b[15]), Num16(b[16], b[17]), Num16(b[18], b[19]), b[n..],
                      f.mss, f.wscale, f.raw));
  }

  // ---------------------------------------------------------------------------------------------
  // Options: round trip and normal form
  // ---------------------------------------------------------------------------------------------

  /** Well-formed options, none of which the codec decodes. */
  predicate Kept(raw: Bytes)
    decreases |raw|
  {
    raw == [] || (StartsOption(raw) && !IsMss(raw[..raw[1]]) && !IsWscale(raw[..raw[1]]) && Kept(raw[raw[1]..]))
  }

  lemma OptionFirst(t: Bytes, rest: Bytes)
    requires IsOption(t)
    ensures Options(t + rest) == [t] + Options(rest)
  {
    var o := t + rest;
    assert o[..o[1]] == t && o[o[1]..] == rest;
  }

  lemma {:induction false} NopsAreSkipped(n: nat)
    ensures Options(Nops(n)) == []
  {
    if n > 0 {
      assert Nops(n)[1..] == Nops(n - 1);
      NopsAreSkipped(n - 1);
    }
  }

  lemma {:induction false} KeptIsTaken(f: Fields, raw: Bytes, n: nat)
    requires Kept(raw)
    ensures TakeAll(f, Options(raw + Nops(n))) == f.(raw := f.raw + raw)
    decreases |raw|
  {
    if raw == [] {
      assert raw + Nops(n) == Nops(n);
      NopsAreSkipped(n);
    } else {
      var t, rest := raw[..raw[1]], raw[raw[1]..];
      assert raw + Nops(n) == t + (rest + Nops(n));
      OptionFirst(t, rest + Nops(n));
      KeptIsTaken(Take(f, t), rest, n);
      assert f.raw + raw == f.raw + t + rest;
    }
  }

  lemma MssRead(m: Option<u16>, rest: Bytes)
    ensures TakeAll(NOTHING, Options(MssBytes(m) + rest)) == TakeAll(NOTHING.(mss := m), Options(rest))
  {
    if m.Some? {
      var t := MssBytes(m);
      OptionFirst(t, rest);
      TakeFirst(NOTHING, t, Options(rest));
      Num16OfBe16(m.value);
    } else {
      assert MssBytes(m) + rest == rest;
    }
  }

  lemma WscaleRead(f: Fields, w: Option<byte>, rest: Bytes)
    requires f.wscale == None
    ensures TakeAll(f, Options(WscaleBytes(w) + rest)) == TakeAll(f.(wscale := w), Options(rest))
  {
    if w.Some? {
      var t := WscaleBytes(w);
      OptionFirst(t, rest);
      TakeFirst(f, t, Options(rest));
    } else {
      assert WscaleBytes(w) + rest == rest;
    }
  }

  /** Options round-trip. */
  lemma OptionsRoundTrip(f: Fields)
    requires Kept(f.raw)
    ensures TakeAll(NOTHING, Options(Padded(OptionBytes(f)))) == f
  {
    hide MssBytes, WscaleBytes, Options, TakeAll, Kept, Nops;
    var n := (4 - |OptionBytes(f)| % 4) % 4;
    var rest := f.raw + Nops(n);
    assert Padded(OptionBytes(f)) == MssBytes(f.mss) + (WscaleBytes(f.wscale) + rest);
    MssRead(f.mss, WscaleBytes(f.wscale) + rest);
    WscaleRead(NOTHING.(mss := f.mss), f.wscale, rest);
    KeptIsTaken(NOTHING.(mss := f.mss, wscale := f.wscale), f.raw, n);
    assert [] + f.raw == f.raw;
  }

  lemma TakeFirst(f: Fields, t: Bytes, ts: seq<Bytes>)
    requires IsOption(t) && forall i :: 0 <= i < |ts| ==> IsOption(ts[i])
    ensures TakeAll(f, [t] + ts) == TakeAll(Take(f, t), ts)
  {
    assert ([t] + ts)[1..] == ts;
  }

  lemma {:induction false} KeptAppend(raw: Bytes, t: Bytes)
    requires Kept(raw) && IsOption(t) && !IsMss(t) && !IsWscale(t)
    ensures Kept(raw + t)
    decreases |raw|
  {
    if raw == [] {
      assert raw + t == t && t[..t[1]] == t && t[t[1]..] == [];
    } else {
      var o := raw + t;
      assert o[..o[1]] == raw[..raw[1]] && o[o[1]..] == raw[raw[1]..] + t;
      KeptAppend(raw[raw[1]..], t);
    }
  }

  function Total(ts: seq<Bytes>): nat { if ts == [] then 0 else |ts[0]| + Total(ts[1..]) }

  lemma {:induction false} OptionsFit(o: Bytes)
    ensures Total(Options(o)) <= |o|
    decreases |o|
  {
    if o == [] {
    } else if o[0] == OPT_NOP {
      OptionsFit(o[1..]);
    } else if StartsOption(o) {
      OptionsFit(o[o[1]..]);
      assert Options(o)[1..] == Options(o[o[1]..]);
    }
  }

  /** What is kept of options is well-formed, and re-encoding it takes no more room. */
  lemma {:induction false} TakenFits(f: Fields, ts: seq<Bytes>)
    requires Kept(f.raw) && forall i :: 0 <= i < |ts| ==> IsOption(ts[i])
    ensures var g := TakeAll(f, ts); Kept(g.raw) && |OptionBytes(g)| <= |OptionBytes(f)| + Total(ts)
    decreases |ts|
  {
    if ts != [] {
      if !IsMss(ts[0]) && !IsWscale(ts[0]) { KeptAppend(f.raw, ts[0]); }
      TakenFits(Take(f, ts[0]), ts[1..]);
    }
  }

  lemma ParsedOptionsFit(o: Bytes)
    ensures var f := TakeAll(NOTHING, Options(o)); Kept(f.raw) && |OptionBytes(f)| <= |o|
  {
    TakenFits(NOTHING, Options(o));
    OptionsFit(o);
  }

  // ---------------------------------------------------------------------------------------------
  // Segments: round trip and normal form
  // ---------------------------------------------------------------------------------------------

  /** A segment the format can carry: its options fit the 40 bytes a header has for them. */
  predicate Carried(s: Segment) { Kept(s.rawOptions) && |OptionBytes(FieldsOf(s))| <= 40 }

  /** The fields of a header read back, and what comes after it is left alone. */
  lemma HeaderReads(s: Segment, offset: byte, more: Bytes)
    ensures var b := Header(s, offset) + more;
            && Num16(b[0], b[1]) == s.srcPort && Num16(b[2], b[3]) == s.dstPort
            && Num32(b[4], b[5], b[6], b[7]) == s.seqNo && Num32(b[8], b[9], b[10], b[11]) == s.ackNo
            && b[12] == offset && FlagsOf(b[13]) == s.flags && Num16(b[14], b[15]) == s.window % 0x1_0000
            && Num16(b[16], b[17]) == s.checksum && Num16(b[18], b[19]) == s.urgentPtr
            && b[20..] == more
  {
    hide Num16, Num32, Be16, Be32, FlagsOf, FlagByte;
    Num16OfBe16(s.srcPort);
    Num16OfBe16(s.dstPort);
    Num32OfBe32(s.seqNo);
    Num32OfBe32(s.ackNo);
    FlagsOfFlagByte(s.flags);
    Num16OfBe16(s.window % 0x1_0000);
    Num16OfBe16(s.checksum);
    Num16OfBe16(s.urgentPtr);
  }

  /** Building and parsing give the segment back, its window cut to 16 bits, exactly when the format can carry it. */
  lemma RoundTrip(s: Segment)
    ensures Parse(Build(s)) == Ok(OffWire(s)) <==> Carried(s)
  {
    hide Num16, Num32, FlagsOf, Header, OptionBytes, Kept, Options, TakeAll, Padded;
    var o := Padded(OptionBytes(FieldsOf(s)));
    var b := Build(s);
    assert b == Header(s, OffsetByte(|o|)) + (o + s.payload);
    HeaderReads(s, OffsetByte(|o|), o + s.payload);
    var n := HeaderLength(b);
    if |o| <= 40 {
      assert n == 20 + |o|;
      assert b[20..n] == (o + s.payload)[..|o|] == o;
      assert b[n..] == s.payload;
      ParsedOptionsFit(o);
      if Kept(s.rawOptions) { OptionsRoundTrip(FieldsOf(s)); }
    } else if 20 <= n <= |b| {
      assert |b[n..]| > |s.payload|;
    }
  }

  /** Parsing reaches a normal form: what was accepted can be built and parsed again to the same segment, and its
      header takes no more room than the original. */
  lemma NormalForm(b: Bytes)
    requires Parse(b).Ok?
    ensures var s := Parse(b).value;
            && Parse(Build(s)) == Ok(s)
            && HeaderLength(Build(s)) <= HeaderLength(b)
  {
    hide Num16, Num32, FlagsOf, Header, OptionBytes, Kept, Options, TakeAll, Padded;
    var s, n := Parse(b).value, HeaderLength(b);
    ParsedOptionsFit(b[20..n]);
    assert FieldsOf(s) == TakeAll(NOTHING, Options(b[20..n]));
    RoundTrip(s);
    HeaderBuilt(s);
  }

  lemma HeaderBuilt(s: Segment)
    ensures var o := Padded(OptionBytes(FieldsOf(s))); |o| <= 40 ==> HeaderLength(Build(s)) == 20 + |o|
  {
    hide Num16, Num32, FlagsOf, Header, OptionBytes, Padded, FieldsOf;
    var o := Padded(OptionBytes(FieldsOf(s)));
    assert Build(s) == Header(s, OffsetByte(|o|)) + (o + s.payload);
    HeaderReads(s, OffsetByte(|o|), o + s.payload);
  }

  // ---------------------------------------------------------------------------------------------
  // The header as the standard draws it
  // ---------------------------------------------------------------------------------------------

  /** The `i`-th 32-bit word, its first byte the most significant. */
  function Word(b: Bytes, i: nat): nat
    requires 4 * i + 4 <= |b|
  {
    var n0: nat, n1: nat, n2: nat := b[4 * i], b[4 * i + 1], b[4 * i + 2];
    16777216 * n0 + 65536 * n1 + 256 * n2 + b[4 * i + 3]
  }

  /** The eight control bits in their order, CWR first. */
  function ControlBits(f: Flags): nat {
    128 * Bit(f.cwr) + 64 * Bit(f.ece) + 32 * Bit(f.urg) + 16 * Bit(f.ack) + 8 * Bit(f.psh) + 4 * Bit(f.rst) + 2 * Bit(f.syn) + Bit(f.fin)
  }

  /** The header format of section 3.1 of RFC 9293, word by word; four bits between data offset and control bits are reserved. */
  predicate AsDrawn(b: Bytes, s: Segment) {
    && |b| >= 20 && 20 <= 4 * (b[12] / 16) <= |b|
    && Word(b, 0) == s.srcPort * 65536 + s.dstPort
    && Word(b, 1) == s.seqNo
    && Word(b, 2) == s.ackNo
    && Word(b, 3) % 0x100_0000 == ControlBits(s.flags) * 65536 + s.window
    && Word(b, 4) == s.checksum * 65536 + s.urgentPtr
    && s.payload == b[4 * (b[12] / 16)..]
  }

  lemma ControlBitsRead(x: byte)
    ensures ControlBits(FlagsOf(x)) == x
  {
    hide Low, Half;
    var b1 := Half(x); var b2 := Half(b1); var b3 := Half(b2); var b4 := Half(b3); var b5 := Half(b4); var b6 := Half(b5); var b7 := Half(b6);
    var f := FlagsOf(x);
    LowBit(x);
    LowBit(b1);
    LowBit(b2);
    LowBit(b3);
    LowBit(b4);
    LowBit(b5);
    LowBit(b6);
    LowBit(b7);
    Joined(x, b1, b2, b3, b4, b5, b6, b7, Half(b7),
           Bit(f.fin), Bit(f.syn), Bit(f.rst), Bit(f.psh), Bit(f.ack), Bit(f.urg), Bit(f.ece), Bit(f.cwr));
  }

  /** Eight halvings of a byte leave its bits. */
  lemma Joined(x: nat, b1: nat, b2: nat, b3: nat, b4: nat, b5: nat, b6: nat, b7: nat, b8: nat,
               l0: nat, l1: nat, l2: nat, l3: nat, l4: nat, l5: nat, l6: nat, l7: nat)
    requires x < 256 && x == 2 * b1 + l0 && b1 == 2 * b2 + l1 && b2 == 2 * b3 + l2 && b3 == 2 * b4 + l3
    requires b4 == 2 * b5 + l4 && b5 == 2 * b6 + l5 && b6 == 2 * b7 + l6 && b7 == 2 * b8 + l7
    ensures 128 * l7 + 64 * l6 + 32 * l5 + 16 * l4 + 8 * l3 + 4 * l2 + 2 * l1 + l0 == x
  {
  }

  lemma LowBit(x: nat)
    ensures x == 2 * Half(x) + Bit(Low(x))
  {
  }

  /** Whatever is accepted is read as the standard draws it. */
  lemma ParsedAsDrawn(b: Bytes)
    requires Parse(b).Ok?
    ensures AsDrawn(b, Parse(b).value)
  {
    hide Options, TakeAll, FlagsOf, ControlBits;
    ControlBitsRead(b[13]);
    assert Word(b, 3) == b[12] * 0x100_0000 + (b[13] * 65536 + Num16(b[14], b[15]));
    RemainderOf(b[12], b[13] * 65536 + Num16(b[14], b[15]));
  }

  lemma RemainderOf(k: nat, x: nat)
    requires x < 0x100_0000
    ensures (k * 0x100_0000 + x) % 0x100_0000 == x
  {
  }

  /** And what is built is drawn so. */
  lemma BuiltAsDrawn(s: Segment)
    requires Carried(s)
    ensures AsDrawn(Build(s), OffWire(s))
  {
    hide AsDrawn, Parse, Build, Carried, OffWire;
    RoundTrip(s);
    ParsedAsDrawn(Build(s));
  }

  lemma CodedOption(f: Fields, t: Bytes, rest: Bytes)
    requires IsOption(t)
    ensures TakeAll(f, Options(t + rest)) == TakeAll(Take(f, t), Options(rest))
  {
    hide Options, TakeAll;
    OptionFirst(t, rest);
    TakeFirst(f, t, Options(rest));
  }

  /** The option kinds of the standard: 0 ends the list, 1 is skipped, 2 with length 4 is the segment size, 3 with length 3 the
      window scale. */
  lemma OptionKinds(f: Fields, x: byte, y: byte, rest: Bytes)
    ensures Options([0] + rest) == [] && Options([1] + rest) == Options(rest)
    ensures TakeAll(f, Options([2, 4, x, y] + rest)) == TakeAll(f.(mss := Some(x * 256 + y)), Options(rest))
    ensures TakeAll(f, Options([3, 3, x] + rest)) == TakeAll(f.(wscale := Some(x)), Options(rest))
  {
    hide TakeAll;
    assert ([1] + rest)[1..] == rest;
    CodedOption(f, [2, 4, x, y], rest);
    CodedOption(f, [3, 3, x], rest);
  }
}
