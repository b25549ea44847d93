/** The second codec, of the simulation's sequence item: it keeps options as the bytes they are. It accepts what
    `SegmentCodec` accepts and is transparent to it. */
module TcpItem {
  import opened SeqNum
  import opened EngineState
  import opened SegmentCodec

  /** The item's fields. */
  datatype Item = Item(
    srcPort: u16, dstPort: u16, seqNum: u32, ackNum: u32, flags: byte, window: u16, checksum: u16, urgentPtr: u16,
    options: Bytes, payload: Bytes)

  /** The wire image; the offset is cut to four bits and the reserved nibble is zero. */
  function ToBytes(t: Item): Bytes {
    Be16(t.srcPort) + Be16(t.dstPort) + Be32(t.seqNum) + Be32(t.ackNum) + [OffsetByte(|t.options|), t.flags]
    + Be16(t.window) + Be16(t.checksum) + Be16(t.urgentPtr) + t.options + t.payload
  }

  function WithHeader(t: Item, b: Bytes): Item
    requires |b| >= 20
  {
    t.(srcPort := Num16(b[0], b[1]), dstPort := Num16(b[2], b[3]), seqNum := Num32(b[4], b[5], b[6], b[7]),
       ackNum := Num32(b[8], b[9], b[10], b[11]), flags := b[13], window := Num16(b[14], b[15]),
       checksum := Num16(b[16], b[17]), urgentPtr := Num16(b[18], b[19]))
  }

  /** The item after `from_bytes`, and whether it accepted. A malformed offset is found after the header fields
      have been set. */
  function FromBytes(t: Item, b: Bytes): (Item, bool) {
    if |b| < 20 then (t, false)
    else
      var n := HeaderLength(b);
      if n < 20 || n > |b| then (WithHeader(t, b), false)
      else (WithHeader(t, b).(options := b[20..n], payload := b[n..]), true)
  }

  class SeqItem {
    var item: Item

    constructor (item: Item)
      ensures this.item == item
    {
      this.item := item;
    }

    method Serialize() returns (b: Bytes)
      ensures b == ToBytes(item)
    {
      var t := item;
      b := Be16(t.srcPort) + Be16(t.dstPort) + Be32(t.seqNum) + Be32(t.ackNum);
      b := b + [(20 + |t.options|) / 4 % 16 * 16];
      b := b + [t.flags] + Be16(t.window) + Be16(t.checksum) + Be16(t.urgentPtr);
      ghost var header := b;
      for i := 0 to |t.options|
        invariant b == header + t.options[..i]
      {
        b := b + [t.options[i]];
      }
      for i := 0 to |t.payload|
        invariant b == header + t.options + t.payload[..i]
      {
        b := b + [t.payload[i]];
      }
    }

    method Deserialize(b: Bytes) returns (ok: bool)
      modifies this
      ensures (item, ok) == FromBytes(old(item), b)
    {
      if |b| < 20 { return false; }
      item := WithHeader(item, b);
      var n := b[12] / 16 * 4;
      if n < 20 || n > |b| { return false; }
      item := item.(options := [], payload := []);
      for i := 20 to n
        invariant item == WithHeader(old(item), b).(options := b[20..i], payload := [])
      {
        item := item.(options := item.options + [b[i]]);
      }
      for i := n to |b|
        invariant item == WithHeader(old(item), b).(options := b[20..n], payload := b[n..i])
      {
        item := item.(payload := item.payload + [b[i]]);
      }
      assert b[n..|b|] == b[n..];
      return true;
    }
  }

  // ---------------------------------------------------------------------------------------------
  // Agreement
  // ---------------------------------------------------------------------------------------------

  /** `b` with the reserved nibble of its offset byte cleared. */
  function Cleared(b: Bytes): Bytes
    requires |b| >= 20
  {
    b[12 := b[12] / 16 * 16]
  }

  /** The item accepts exactly what the segment codec accepts, and then writes the same bytes back, up to the
      reserved nibble. */
  lemma ItemAccepts(t: Item, b: Bytes)
    ensures FromBytes(t, b).1 <==> Parse(b).Ok?
    ensures FromBytes(t, b).1 ==> ToBytes(FromBytes(t, b).0) == Cleared(b)
  {
    hide Num16, Num32, Be16, Be32, FlagsOf, TakeAll, Options;
    if FromBytes(t, b).1 {
      var n := HeaderLength(b);
      Be16OfNum16(b[0], b[1]);
      Be16OfNum16(b[2], b[3]);
      Be32OfNum32(b[4], b[5], b[6], b[7]);
      Be32OfNum32(b[8], b[9], b[10], b[11]);
      Be16OfNum16(b[14], b[15]);
      Be16OfNum16(b[16], b[17]);
      Be16OfNum16(b[18], b[19]);
      assert OffsetByte(n - 20) == b[12] / 16 * 16;
      assert b[20..] == b[20..n] + b[n..];
    }
  }

  /** The reserved nibble means nothing to the segment codec. */
  lemma ReservedIgnored(b: Bytes)
    requires |b| >= 20
    ensures Parse(Cleared(b)) == Parse(b)
  {
    hide Num16, Num32, FlagsOf, TakeAll, Options;
    var c := Cleared(b);
    assert HeaderLength(c) == HeaderLength(b);
    assert c[20..] == b[20..];
    var n := HeaderLength(b);
    if 20 <= n <= |b| { assert c[20..n] == b[20..n] && c[n..] == b[n..]; }
  }

  /** Passing any accepted bytes through the item leaves what they parse to unchanged. */
  lemma ItemIsTransparent(t: Item, b: Bytes)
    requires Parse(b).Ok?
    ensures FromBytes(t, b).1 && Parse(ToBytes(FromBytes(t, b).0)) == Parse(b)
  {
    hide Parse, ToBytes, FromBytes;
    assert |b| >= 20 by { ParsedIsLong(b); }
    ItemAccepts(t, b);
    ReservedIgnored(b);
  }

  lemma ParsedIsLong(b: Bytes)
    requires Parse(b).Ok?
    ensures |b| >= 20
  {
  }

  /** A built segment passes through the item byte for byte. */
  lemma BuiltPassesThrough(t: Item, s: Segment)
    requires Carried(s)
    ensures FromBytes(t, Build(s)).1 && ToBytes(FromBytes(t, Build(s)).0) == Build(s)
  {
    hide Parse, ToBytes, FromBytes, Header, OptionBytes, Kept, Padded;
    RoundTrip(s);
    ItemAccepts(t, Build(s));
    var o := Padded(OptionBytes(FieldsOf(s)));
    assert Build(s) == Header(s, OffsetByte(|o|)) + (o + s.payload);
    HeaderReads(s, OffsetByte(|o|), o + s.payload);
    assert Build(s)[12] / 16 * 16 == Build(s)[12];
    assert Cleared(Build(s)) == Build(s);
  }
}
