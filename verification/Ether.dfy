/** The Ethernet frame extractor as registers that one rising clock edge updates in place. The parser's registers
    and the output registers are two record-valued fields. */
module Ether {
  import opened Crc32
  import Spec = EtherSpec
  import opened EtherSpec

  class Ether {
    const params: Params
    var regs: Regs
    var out: Outputs

    function Value(): Ethernet
      reads this
    {
      Ethernet(regs, out)
    }

    constructor (params: Params)
      ensures this.params == params
    {
      this.params := params;
    }

    method Reset()
      modifies this
      ensures Value() == Clock(params, old(Value()), true, false, 0)
    {
      regs := RESET_REGS;
      out := Outputs(false, 0, false, false, RESET_REPORT);
    }

    method HuntByte(data: bv8)
      modifies this`regs
      ensures regs == Hunt(params, old(regs), data)
    {
      if data == SFD && regs.preCnt >= params.minPreambleLen {
        // The frame body starts with the next byte.
        regs := regs.(phase := DST, hdrCnt := 0, frameBytes := 0, plCnt := 0, dlyCnt := 0, crc := INIT);
        regs := regs.(vlanSeen := false, lenMode := false, preCnt := 0);
      } else if data == PREAMBLE {
        if regs.preCnt != 7 { regs := regs.(preCnt := regs.preCnt + 1); }
      } else {
        regs := regs.(preCnt := 0);
      }
    }

    /** A header field whose last byte has index `last` moves on by one byte. */
    method NextHeaderByte(last: nat, next: Phase)
      modifies this`regs
      ensures regs == Field(old(regs), last, next)
    {
      if regs.hdrCnt == last {
        regs := regs.(hdrCnt := 0);
        regs := regs.(phase := next);
      } else {
        regs := regs.(hdrCnt := regs.hdrCnt + 1);
      }
    }

    method TypeByte(t: bv16)
      modifies this`regs
      ensures regs == TypeField(old(regs), t)
    {
      regs := regs.(typeSr := t);
      if regs.hdrCnt == 1 {
        regs := regs.(hdrCnt := 0);
        if !regs.vlanSeen && t == VLAN_TPID {
          regs := regs.(vlanSeen := true, phase := VLAN);
        } else {
          regs := regs.(phase := PAYLOAD, lenMode := t <= MAX_LEN_FIELD, lenField := t as int);
        }
      } else {
        regs := regs.(hdrCnt := regs.hdrCnt + 1);
      }
    }

    /** A payload beat, and the report if the attempt ends with this byte. */
    method Publish(data: bv8, hit: bool, closes: bool, plCntNext: u16)
      requires regs.phase == PAYLOAD && hit == CrcHit(regs, data) && closes == Closes(params, regs, data)
      requires plCntNext == PlCntNext(regs) && out == Quieted(out)
      modifies this`out
      ensures out == NextOut(params, regs, old(out), data)
    {
      hide CrcHit, Closes, PlCntNext, Oldest;
      if PlEmit(regs) {
        out := out.(plValid := true, plData := Oldest(regs.dly));
        out := out.(plLast := hit || (regs.lenMode && plCntNext == regs.lenField));
      }
      if closes {
        var result := Report(regs.dstSr, regs.srcSr, regs.typeSr, plCntNext, regs.vlanSeen, regs.tciSr, hit,
                             hit && Inc(regs.frameBytes) < params.minFrameBytes, !hit);
        out := out.(valid := true, report := result);
      }
    }

    method PayloadByte(data: bv8, crcNext: bv32)
      requires regs.phase == PAYLOAD && crcNext == ByteStep(regs.crc, data) && out == Quieted(out)
      modifies this
      ensures regs == Spec.PayloadByte(params, old(regs), data)
      ensures out == NextOut(params, old(regs), old(out), data)
    {
      hide ByteStep, Push32, NextOut;
      var hit := crcNext == RESIDUE;
      var closes := hit || Inc(regs.frameBytes) > params.maxFrameBytes;
      var plCntNext := if PlEmit(regs) then Inc(regs.plCnt) else regs.plCnt;
      Publish(data, hit, closes, plCntNext);
      regs := regs.(crc := crcNext, frameBytes := Inc(regs.frameBytes), plCnt := plCntNext, dly := Push32(regs.dly, data));
      if regs.dlyCnt != FCS_BYTES { regs := regs.(dlyCnt := (regs.dlyCnt + 1) % 8); }
      if closes { regs := regs.(phase := HUNT, preCnt := 0); }
    }

    /** One rising clock edge. */
    method Tick(rst: bool, valid: bool, data: bv8)
      modifies this
      ensures Value() == Clock(params, old(Value()), rst, valid, data)
    {
      hide ByteStep, Push48, Push16, Push32, Oldest, Hunt, Field, TypeField, Spec.PayloadByte;
      if rst {
        Reset();
        return;
      }
      out := out.(plValid := false, plLast := false, valid := false);
      if !valid { return; }
      if regs.phase == HUNT {
        HuntByte(data);
        return;
      }
      var crcNext := Crc32Next(regs.crc, data);
      if regs.phase == PAYLOAD {
        PayloadByte(data, crcNext);
        return;
      }
      regs := regs.(crc := crcNext, frameBytes := Inc(regs.frameBytes));
      if regs.phase == DST {
        regs := regs.(dstSr := Push48(regs.dstSr, data));
        NextHeaderByte(5, SRC);
      } else if regs.phase == SRC {
        regs := regs.(srcSr := Push48(regs.srcSr, data));
        NextHeaderByte(5, TYPE);
      } else if regs.phase == TYPE {
        TypeByte(Push16(regs.typeSr, data));
      } else {
        regs := regs.(tciSr := Push16(regs.tciSr, data));
        NextHeaderByte(1, TYPE);
      }
    }
  }
}
