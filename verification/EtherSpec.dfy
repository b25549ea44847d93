/** The Ethernet frame extractor, one clock at a time. The registers and what one rising edge does to them, as a
    function; class `Ether` is proved to do exactly this in place. */
module EtherSpec {
  import opened Crc32

  datatype Phase = HUNT | DST | SRC | TYPE | VLAN | PAYLOAD

  const PREAMBLE: bv8 := 0x55
  const SFD: bv8 := 0xD5
  const VLAN_TPID: bv16 := 0x8100
  const MAX_LEN_FIELD: bv16 := 1500
  const FCS_BYTES: nat := 4

  type u16 = x: int | 0 <= x < 0x1_0000
  type u3 = x: int | 0 <= x < 8

  /** The module's parameters, in the widths the comparisons cut them to. */
  datatype Params = Params(maxFrameBytes: u16, minFrameBytes: u16, minPreambleLen: u3)

  /** Registers of the parser. `dly` holds back the last four bytes, the oldest on top. */
  datatype Regs = Regs(
    phase: Phase, crc: bv32, preCnt: u3, hdrCnt: nat, frameBytes: u16, plCnt: u16,
    dly: bv32, dlyCnt: u3, lenMode: bool, lenField: u16, vlanSeen: bool,
    dstSr: bv48, srcSr: bv48, typeSr: bv16, tciSr: bv16)

  /** What a finished extraction reports. */
  datatype Report = Report(
    dstMac: bv48, srcMac: bv48, ethertype: bv16, payloadBytes: u16, vlanValid: bool, vlanTci: bv16,
    fcsOk: bool, errRunt: bool, errOversize: bool)

  /** Output registers: a payload beat, and a report that is held until the next one. */
  datatype Outputs = Outputs(plValid: bool, plData: bv8, plLast: bool, valid: bool, report: Report)

  datatype Ethernet = Ethernet(regs: Regs, out: Outputs)

  const RESET_REGS := Regs(HUNT, INIT, 0, 0, 0, 0, 0, 0, false, 0, false, 0, 0, 0, 0)
  const RESET_REPORT := Report(0, 0, 0, 0, false, 0, false, false, false)

  // ---------------------------------------------------------------------------------------------
  // Combinational logic
  // ---------------------------------------------------------------------------------------------

  function Inc(x: u16): u16 { (x + 1) % 0x1_0000 }

  predicate CrcHit(r: Regs, d: bv8) { r.phase == PAYLOAD && ByteStep(r.crc, d) == RESIDUE }

  /** A byte leaves the holdback, and is within the 802.3 length if there is one. */
  predicate PlEmit(r: Regs) {
    r.phase == PAYLOAD && r.dlyCnt == FCS_BYTES && !(r.lenMode && r.plCnt >= r.lenField)
  }

  function PlCntNext(r: Regs): u16 { if PlEmit(r) then Inc(r.plCnt) else r.plCnt }

  predicate PlLast(r: Regs, d: bv8) { CrcHit(r, d) || (r.lenMode && PlCntNext(r) == r.lenField) }

  predicate Oversize(p: Params, r: Regs) { r.phase != HUNT && Inc(r.frameBytes) > p.maxFrameBytes }

  function Oldest(dly: bv32): bv8 { (dly >> 24) as bv8 }

  function Push32(w: bv32, d: bv8): bv32 { (w << 8) | (d as bv32) }
  function Push48(w: bv48, d: bv8): bv48 { (w << 8) | (d as bv48) }
  function Push16(w: bv16, d: bv8): bv16 { (w << 8) | (d as bv16) }

  // ---------------------------------------------------------------------------------------------
  // One clock
  // ---------------------------------------------------------------------------------------------

  /** A byte while hunting for preamble and start-of-frame delimiter. */
  function Hunt(p: Params, r: Regs, d: bv8): Regs {
    if d == SFD && r.preCnt >= p.minPreambleLen then
      r.(phase := DST, hdrCnt := 0, frameBytes := 0, plCnt := 0, dlyCnt := 0, crc := INIT, vlanSeen := false,
         lenMode := false, preCnt := 0)
    else if d == PREAMBLE then r.(preCnt := if r.preCnt != 7 then r.preCnt + 1 else 7)
    else r.(preCnt := 0)
  }

  /** The header field in `r.phase` has `last` as the index of its final byte. */
  function Field(r: Regs, last: nat, next: Phase): Regs {
    if r.hdrCnt == last then r.(hdrCnt := 0, phase := next) else r.(hdrCnt := r.hdrCnt + 1)
  }

  function TypeField(r: Regs, t: bv16): Regs {
    if r.hdrCnt == 1 then
      if !r.vlanSeen && t == VLAN_TPID then r.(typeSr := t, hdrCnt := 0, vlanSeen := true, phase := VLAN)
      else r.(typeSr := t, hdrCnt := 0, phase := PAYLOAD, lenMode := t <= MAX_LEN_FIELD, lenField := t as int)
    else r.(typeSr := t, hdrCnt := r.hdrCnt + 1)
  }

  function PayloadByte(p: Params, r: Regs, d: bv8): Regs {
    var s := r.(crc := ByteStep(r.crc, d), frameBytes := Inc(r.frameBytes), dly := Push32(r.dly, d),
                dlyCnt := if r.dlyCnt != FCS_BYTES then (r.dlyCnt + 1) % 8 else r.dlyCnt, plCnt := PlCntNext(r));
    if Closes(p, r, d) then s.(phase := HUNT, preCnt := 0) else s
  }

  /** The extraction attempt ends with this byte. */
  predicate Closes(p: Params, r: Regs, d: bv8) { CrcHit(r, d) || Oversize(p, r) }

  /** Every in-frame byte advances the CRC and the length counter. */
  function Counted(r: Regs, d: bv8): Regs { r.(crc := ByteStep(r.crc, d), frameBytes := Inc(r.frameBytes)) }

  function NextRegs(p: Params, r: Regs, d: bv8): Regs {
    match r.phase
    case HUNT => Hunt(p, r, d)
    case DST => Field(Counted(r, d).(dstSr := Push48(r.dstSr, d)), 5, SRC)
    case SRC => Field(Counted(r, d).(srcSr := Push48(r.srcSr, d)), 5, TYPE)
    case TYPE => TypeField(Counted(r, d), Push16(r.typeSr, d))
    case VLAN => Field(Counted(r, d).(tciSr := Push16(r.tciSr, d)), 1, TYPE)
    case PAYLOAD => PayloadByte(p, r, d)
  }

  function ReportOf(p: Params, r: Regs, d: bv8): Report {
    Report(r.dstSr, r.srcSr, r.typeSr, PlCntNext(r), r.vlanSeen, r.tciSr, CrcHit(r, d),
           CrcHit(r, d) && Inc(r.frameBytes) < p.minFrameBytes, !CrcHit(r, d))
  }

  function Quieted(o: Outputs): Outputs { o.(plValid := false, plLast := false, valid := false) }

  function NextOut(p: Params, r: Regs, o: Outputs, d: bv8): Outputs {
    var beat := if PlEmit(r) then Outputs(true, Oldest(r.dly), PlLast(r, d), false, o.report) else Quieted(o);
    if r.phase == PAYLOAD && Closes(p, r, d) then beat.(valid := true, report := ReportOf(p, r, d)) else beat
  }

  /** One rising clock edge. */
  function Clock(p: Params, s: Ethernet, rst: bool, valid: bool, data: bv8): Ethernet {
    if rst then Ethernet(RESET_REGS, Outputs(false, 0, false, false, RESET_REPORT))
    else if valid then Ethernet(NextRegs(p, s.regs, data), NextOut(p, s.regs, s.out, data))
    else s.(out := Quieted(s.out))
  }
}
