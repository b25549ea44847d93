/** The engine as the source writes it: an object whose methods update its fields in place, step by step. The
    fields of the source's TCB and its buffers, queues and timers are grouped in three record-valued fields
    that only this object holds. Every method is proved to take the object's value to what `EngineSpec` says,
    so the theorems about those functions are theorems about runs of this object. */
module TcpEngineClass {
  import opened SeqNum
  import opened EngineState
  import Spec = EngineSpec
  import opened EngineFacts

  class TcpEngine {
    const cfg: Config
    var localPort: u16
    var remotePort: u16
    var passive: bool
    var state: ConnState
    var snd: SendSide
    var rcv: RecvSide
    var tm: Timers
    var rtt: Rtt
    // Calls of `tx`, `on_state_change` and `on_error`, and the history the properties speak about.
    var wire: seq<Packet>
    var signals: seq<Signal>
    var hist: History

    /** The object's value. */
    function Value(): Engine
      reads this
    {
      Engine(cfg, localPort, remotePort, passive, state, snd, rcv, tm, rtt, hist, wire, signals)
    }

    constructor (cfg: Config, localPort: u16, userTimeout: Option<real>, now: real)
      ensures Value() == Fresh(cfg, localPort, userTimeout, now)
    {
      this.cfg := cfg;
      this.localPort, this.remotePort, this.passive, this.state := localPort, cfg.remotePort, false, CLOSED;
      snd := SendSide(0, 0, 0, 0, 0, 0, cfg.mss, [], [], false, false, false, 0, None);
      rcv := RecvSide(0, 0, [], [], false, None, None, false);
      tm := Timers(now, None, None, cfg.timers.persistMin, None, None, 0, 0, None, 0, None, userTimeout);
      rtt := Rtt(None, 0.0, cfg.timers.rtoInitial);
      wire, signals, hist := [], [], History(false, false, [], [], false, 0, [], 0, 0);
    }

    // -------------------------------------------------------------------------------------------
    // Emitting segments
    // -------------------------------------------------------------------------------------------

    method MakeSegment(sn: u32, flags: Flags, payload: seq<byte>, withMss: bool) returns (p: Packet)
      modifies this`rcv
      ensures Value() == Spec.Emit(old(Value()), sn, flags, payload, withMss).(wire := old(wire))
      ensures wire + [p] == Spec.Emit(old(Value()), sn, flags, payload, withMss).wire
    {
      var wnd := Spec.RcvWnd(Value());
      var right := Add(rcv.nxt, wnd);
      p := Packet(Segment(localPort, remotePort, sn, if flags.ack then rcv.nxt else 0, flags, wnd, 0, 0, payload,
                          if withMss then Some(snd.mss) else None, None, []),
                  SentEnd(hist) - Sub(snd.nxt, sn), RecvPos(hist), Spec.Reach(Value(), sn, SpaceLen(flags, payload)), hist.fins);
      if wnd == 0 { rcv := rcv.(zeroWin := true); }
      if rcv.advRight.None? || SeqGt(right, rcv.advRight.value) { rcv := rcv.(advRight := Some(right)); }
    }

    method Transmit(p: Packet)
      modifies this`wire
      ensures wire == old(wire) + [p]
    {
      wire := wire + [p];
    }

    method Emit(sn: u32, flags: Flags, payload: seq<byte>, withMss: bool)
      modifies this`rcv, this`wire
      ensures Value() == Spec.Emit(old(Value()), sn, flags, payload, withMss)
    {
      var p := MakeSegment(sn, flags, payload, withMss);
      Transmit(p);
    }

    method EmitRstReply(seg: Segment, sn: u32, ack: u32, ackFlag: bool)
      modifies this`wire
      ensures Value() == Spec.EmitRstReply(old(Value()), seg, sn, ack, ackFlag)
    {
      var flags := if ackFlag then RST_ACK else RST;
      var r := Segment(if seg.dstPort != 0 then seg.dstPort else localPort,
                       if seg.srcPort != 0 then seg.srcPort else remotePort,
                       sn, ack, flags, 0, 0, 0, [], None, None, []);
      Transmit(Packet(r, 0, 0, 0, 0));
    }

    method SendAck()
      modifies this`rcv, this`wire, this`tm
      ensures Value() == Spec.SendAck(old(Value()))
    {
      Emit(snd.nxt, ACK, [], false);
      tm := tm.(ackCount := 0);
      if tm.ack.Some? { tm := tm.(ack := None); }
    }

    method ScheduleAck(force: bool)
      modifies this`rcv, this`wire, this`tm
      ensures Value() == Spec.ScheduleAck(old(Value()), force)
    {
      hide Spec.SendAck;
      if cfg.timers.delayedAck.None? || force {
        SendAck();
        return;
      }
      tm := tm.(ackCount := tm.ackCount + 1);
      if tm.ackCount >= 2 {
        SendAck();
        return;
      }
      if tm.ack.None? { tm := tm.(ack := Spec.Later(tm, cfg.timers.delayedAck.value)); }
    }

    method ArmRt()
      modifies this`tm
      ensures tm == if snd.retx != [] && old(tm).rt.None? then old(tm).(rt := Spec.Later(old(tm), rtt.rto)) else old(tm)
    {
      if snd.retx == [] { return; }
      if tm.rt.Some? { return; }
      tm := tm.(rt := Spec.Later(tm, rtt.rto));
    }

    method Enqueue(o: Outgoing)
      modifies this`snd, this`tm
      ensures snd == Spec.Enqueued(old(snd), o, old(tm).now)
      ensures tm == old(tm).(unaSince := if old(snd).retx == [] then Some(old(tm).now) else old(tm).unaSince)
    {
      if snd.retx == [] { tm := tm.(unaSince := Some(tm.now)); }
      snd := snd.(retx := snd.retx + [o]);
      snd := snd.(nxt := o.End());
      if snd.rttPending.None? { snd := snd.(rttPending := Some((snd.nxt, tm.now))); }
    }

    method QueueAndSend(flags: Flags, payload: seq<byte>, withMss: bool)
      modifies this`rcv, this`wire, this`tm, this`snd, this`hist
      ensures Value() == Spec.QueueAndSend(old(Value()), flags, payload, withMss)
    {
      hide Spec.MakeSegment, Spec.AdvertisedRight, Spec.RcvWnd, PosOf, SentEnd;
      var sn := snd.nxt;
      var p := MakeSegment(sn, flags, payload, withMss);
      Enqueue(Outgoing(sn, flags, payload, tm.now, false, SentEnd(hist), 1));
      Transmit(p);
      ArmRt();
      hist := Spec.Sending(hist, flags, payload);
    }

    // -------------------------------------------------------------------------------------------
    // State and keepalive
    // -------------------------------------------------------------------------------------------

    method RestartKeepalive(resetProbes: bool)
      modifies this`tm
      ensures Value() == Spec.RestartKeepalive(old(Value()), resetProbes)
    {
      if cfg.timers.keepaliveIdle.None? { return; }
      if resetProbes { tm := tm.(kaProbes := 0); }
      tm := tm.(ka := None);
      if state != ESTABLISHED { return; }
      var delay := if tm.kaProbes == 0 then cfg.timers.keepaliveIdle.value else cfg.timers.keepaliveInterval;
      tm := tm.(ka := Spec.Later(tm, delay));
    }

    method CancelKeepalive()
      modifies this`tm
      ensures Value() == Spec.CancelKeepalive(old(Value()))
    {
      tm := tm.(ka := None);
      tm := tm.(kaProbes := 0);
    }

    method SetState(to: ConnState)
      modifies this`state, this`signals, this`tm
      ensures Value() == Spec.SetState(old(Value()), to)
    {
      var from := state;
      if from == to { return; }
      state := to;
      signals := signals + [StateChange(from, to)];
      if to == ESTABLISHED {
        RestartKeepalive(true);
      } else if from == ESTABLISHED {
        CancelKeepalive();
      }
    }

    method SignalError(what: ErrorSignal)
      modifies this`signals
      ensures Value() == Spec.SignalError(old(Value()), what)
    {
      signals := signals + [Error(what)];
    }

    // -------------------------------------------------------------------------------------------
    // Sending
    // -------------------------------------------------------------------------------------------

    method ArmPersist()
      modifies this`tm
      ensures Value() == Spec.ArmPersist(old(Value()))
    {
      if tm.persist.Some? { return; }
      tm := tm.(persistBackoff := cfg.timers.persistMin);
      tm := tm.(persist := Spec.Later(tm, tm.persistBackoff));
    }

    method SendFin()
      modifies this
      ensures Value() == Spec.SendFin(old(Value()))
    {
      hide Spec.QueueAndSend, Spec.SetState;
      snd := snd.(finSeq := snd.nxt);
      QueueAndSend(FIN_ACK, [], false);
      snd := snd.(finSent := true);
      match state
      case ESTABLISHED => SetState(FIN_WAIT_1);
      case SYN_RECEIVED => SetState(FIN_WAIT_1);
      case CLOSE_WAIT => SetState(LAST_ACK);
      case _ => SetStateSame(Value());
    }

    /** Segment and send what the window allows, then the FIN. */
    method SendPending()
      modifies this
      ensures Value() == Spec.SendPending(old(Value()))
    {
      hide Spec.SendFin, Spec.QueueAndSend, Spec.ArmPersist, Spec.UsableWindow;
      if !(state == ESTABLISHED || state == CLOSE_WAIT) {
        if !(state == SYN_RECEIVED && snd.finPending && snd.appBuf == []) { return; }
      }
      while snd.appBuf != []
        invariant Spec.PumpData(Value()) == Spec.PumpData(old(Value()))
        decreases |snd.appBuf|
      {
        if snd.wnd == 0 {
          ArmPersist();
          return;
        }
        var usable := Spec.UsableWindow(Value());
        if usable <= 0 { return; }
        var n := Min(Min(snd.mss, usable), |snd.appBuf|);
        if cfg.timers.nagle && snd.retx != [] && n < snd.mss { return; }
        var chunk := snd.appBuf[..n];
        label cut:
        snd := snd.(appBuf := snd.appBuf[n..]);
        QueueAndSend(ACK, chunk, false);
        ChunkTakes(old@cut(Value()), n);
      }
      if snd.finPending && !snd.finSent && snd.appBuf == [] {
        if snd.wnd == 0 {
          ArmPersist();
          return;
        }
        if Spec.UsableWindow(Value()) < 1 { return; }
        SendFin();
      }
    }

    method CancelPersist()
      modifies this
      ensures Value() == Spec.CancelPersist(old(Value()))
    {
      hide Spec.SendPending;
      tm := tm.(persist := None);
      SendPending();
    }

    // -------------------------------------------------------------------------------------------
    // Acknowledgements
    // -------------------------------------------------------------------------------------------

    method StopRt()
      modifies this`tm
      ensures Value() == Spec.StopRt(old(Value()))
    {
      tm := tm.(rt := None);
      tm := tm.(rtoCount := 0);
    }

    method RestartRt()
      modifies this`tm
      ensures tm == old(tm).(rt := if snd.retx == [] then None else Spec.Later(old(tm), rtt.rto))
    {
      tm := tm.(rt := None);
      if snd.retx != [] { tm := tm.(rt := Spec.Later(tm, rtt.rto)); }
    }

    method TakeSample(ack: u32) returns (taken: bool)
      modifies this`snd, this`rtt
      ensures taken == Spec.TakesSample(old(Value()), ack)
      ensures snd == if taken then old(snd).(rttPending := None) else old(snd)
      ensures rtt == if taken then Spec.RttSample(cfg.timers, old(rtt), tm.now - old(snd).rttPending.value.1) else old(rtt)
    {
      taken := false;
      if snd.rttPending.Some? {
        var (end, t) := snd.rttPending.value;
        if SeqGeq(ack, end) {
          rtt := Spec.RttSample(cfg.timers, rtt, tm.now - t);
          snd := snd.(rttPending := None);
          taken := true;
        }
      }
    }

    /** Drop what is acknowledged from the retransmission queue, cutting an entry that is partly so. */
    method TrimQueue(ack: u32)
      modifies this`snd
      ensures snd == old(snd).(retx := Spec.Trim(old(snd).retx, ack))
    {
      hide Spec.TrimHead;
      while snd.retx != []
        invariant snd == old(snd).(retx := snd.retx)
        invariant Spec.Trim(snd.retx, ack) == Spec.Trim(old(snd).retx, ack)
        decreases |snd.retx|
      {
        var o := snd.retx[0];
        if SeqLeq(o.End(), ack) {
          snd := snd.(retx := snd.retx[1..]);
        } else if SeqLt(o.seqNo, ack) {
          snd := snd.(retx := [Spec.TrimHead(o, ack)] + snd.retx[1..]);
          return;
        } else {
          return;
        }
      }
    }

    method AckSendSide(ack: u32)
      modifies this`snd, this`hist
      ensures snd == Spec.AckedSend(old(snd), ack)
      ensures hist == old(hist).(unaPos := old(hist).unaPos + Sub(ack, old(snd).una))
    {
      hide Spec.Trim;
      hist := hist.(unaPos := hist.unaPos + Sub(ack, snd.una));
      snd := snd.(una := ack);
      TrimQueue(ack);
      if snd.finSent && SeqGt(snd.una, snd.finSeq) { snd := snd.(finAcked := true); }
    }

    method AckTimers()
      modifies this`tm
      ensures tm == Spec.AckedTimers(old(tm), snd.retx == [], rtt.rto)
    {
      tm := tm.(unaSince := if snd.retx == [] then None else Some(tm.now));
      tm := tm.(rtoCount := 0);
      if snd.retx != [] {
        RestartRt();
      } else {
        StopRt();
      }
    }

    method ProcessAck(ack: u32)
      modifies this`snd, this`rtt, this`tm, this`hist
      ensures Value() == Spec.ProcessAck(old(Value()), ack)
    {
      hide Spec.Trim, Spec.RttSample, Spec.TakesSample, Spec.AckedSend, Spec.AckedTimers;
      var taken := TakeSample(ack);
      AckSendSide(ack);
      AckTimers();
    }

    // -------------------------------------------------------------------------------------------
    // Receiving and reassembly
    // -------------------------------------------------------------------------------------------

    method Deliver(data: seq<byte>)
      modifies this`rcv, this`hist
      ensures Value() == Spec.Deliver(old(Value()), data)
    {
      if !cfg.streaming { rcv := rcv.(buf := rcv.buf + data); }
      rcv := rcv.(nxt := Add(rcv.nxt, |data|));
      hist := hist.(delivered := hist.delivered + data);
    }

    method StoreOoo(sn: u32, data: seq<byte>)
      modifies this`rcv
      ensures Value() == Spec.StoreOoo(old(Value()), sn, data)
    {
      var i := 0;
      while i < |rcv.ooo|
        invariant 0 <= i <= |rcv.ooo| && rcv == old(rcv)
        invariant forall j :: 0 <= j < i ==> !(rcv.ooo[j].seqNo == sn && |rcv.ooo[j].data| >= |data|)
      {
        if rcv.ooo[i].seqNo == sn && |rcv.ooo[i].data| >= |data| { return; }
        i := i + 1;
      }
      rcv := rcv.(ooo := rcv.ooo + [Block(sn, data, RecvPos(hist) + S32(sn - rcv.nxt))]);
    }

    /** Act on the first block that touches RCV.NXT, if there is one. */
    method MergeOne() returns (progressed: bool)
      modifies this`rcv, this`hist
      ensures var i := Spec.FirstMergeable(old(rcv).ooo, old(rcv).nxt);
              && progressed == (i < |old(rcv).ooo|)
              && Value() == if progressed then Spec.MergeStep(old(Value()), i) else old(Value())
    {
      hide Spec.FirstMergeable;
      var i := 0;
      while i < |rcv.ooo|
        invariant 0 <= i <= |rcv.ooo| && Value() == old(Value())
        invariant forall j :: 0 <= j < i ==> !Spec.Mergeable(rcv.ooo[j], rcv.nxt)
      {
        var b := rcv.ooo[i];
        if SeqLeq(b.End(), rcv.nxt) {
          rcv := rcv.(ooo := rcv.ooo[..i] + rcv.ooo[i+1..]);
          return true;
        }
        if SeqLeq(b.seqNo, rcv.nxt) && SeqGt(b.End(), rcv.nxt) {
          Deliver(b.data[Min(Sub(rcv.nxt, b.seqNo), |b.data|)..]);
          rcv := rcv.(ooo := rcv.ooo[..i] + rcv.ooo[i+1..]);
          return true;
        }
        i := i + 1;
      }
      return false;
    }

    method Merge()
      modifies this`rcv, this`hist
      ensures Value() == Spec.Merge(old(Value()))
    {
      hide Spec.MergeStep, Spec.FirstMergeable;
      var progressed := true;
      while progressed
        invariant Spec.Merge(Value()) == Spec.Merge(old(Value()))
        invariant !progressed ==> Spec.Merge(Value()) == Value()
        decreases |rcv.ooo|, progressed
      {
        label before:
        progressed := MergeOne();
        if progressed { MergeShrinks(old@before(Value()), Spec.FirstMergeable(old@before(rcv).ooo, old@before(rcv).nxt)); }
      }
    }

    method RecvData(seg: Segment)
      modifies this`rcv, this`hist, this`wire, this`tm
      ensures Value() == Spec.RecvData(old(Value()), seg)
    {
      hide Spec.ScheduleAck, Spec.Merge, Spec.Deliver, Spec.StoreOoo, Spec.RcvWnd, S32, SeqLt, Sub, Add;
      var data, sn := seg.payload, seg.seqNo;
      if data == [] { return; }
      if SeqLt(sn, rcv.nxt) {
        var off := Sub(rcv.nxt, sn);
        if off >= |data| {
          ScheduleAck(true);
          return;
        }
        data := data[off..];
        sn := rcv.nxt;
      } else {
        assert data == data[0..];
      }
      var space := S32(Sub(Add(rcv.nxt, Spec.RcvWnd(Value())), sn));
      if space <= 0 {
        ScheduleAck(true);
        return;
      }
      data := data[..Min(space, |data|)];
      if sn == rcv.nxt {
        Deliver(data);
        Merge();
        ScheduleAck(false);
      } else {
        StoreOoo(sn, data);
        ScheduleAck(true);
      }
    }

    // -------------------------------------------------------------------------------------------
    // Closing
    // -------------------------------------------------------------------------------------------

    method ResetBuffers()
      modifies this`snd, this`rcv, this`tm
      ensures Value() == Spec.ResetBuffers(old(Value()))
    {
      snd := snd.(appBuf := [], retx := [], finPending := false, finSent := false, finAcked := false);
      snd := snd.(rttPending := None);
      rcv := rcv.(buf := [], ooo := []);
      rcv := rcv.(pendingFin := None, advRight := None);
      tm := tm.(unaSince := None);
    }

    method EnterClosed()
      modifies this
      ensures Value() == Spec.EnterClosed(old(Value()))
    {
      hide Spec.CancelPersist, Spec.SetState, Spec.ResetBuffers;
      StopRt();
      CancelPersist();
      CancelKeepalive();
      tm := tm.(tw := None);
      tm := tm.(ack := None);
      ClosedTimers(Spec.CancelPersist(Spec.StopRt(old(Value()))));
      ResetBuffers();
      SetState(CLOSED);
    }

    /** The order in which the three timers are dropped does not matter. */
    static lemma ClosedTimers(e: Engine)
      ensures var f := Spec.CancelKeepalive(e);
              f.(tm := f.tm.(tw := None).(ack := None)) == f.(tm := f.tm.(tw := None, ack := None))
    {
    }

    method EnterTimeWait()
      modifies this
      ensures Value() == Spec.EnterTimeWait(old(Value()))
    {
      hide Spec.CancelPersist, Spec.SetState;
      StopRt();
      CancelPersist();
      SetState(TIME_WAIT);
      RestartTimeWait();
    }

    method RestartTimeWait()
      modifies this`tm
      ensures Value() == Spec.RestartTimeWait(old(Value()))
    {
      tm := tm.(tw := None);
      tm := tm.(tw := Spec.Later(tm, 2.0 * cfg.timers.msl));
    }

    method DoReset()
      modifies this
      ensures Value() == Spec.DoReset(old(Value()))
    {
      hide Spec.CancelPersist, Spec.SetState, Spec.ResetBuffers, Spec.EnterClosed;
      if state == SYN_RECEIVED && passive {
        SetState(LISTEN);
        ResetBuffers();
        StopRt();
        CancelPersist();
        remotePort := cfg.remotePort;
        hist := hist.(synOut := false, accepted := []);
      } else if state == SYN_RECEIVED {
        SignalError(ConnectionRefused);
        EnterClosed();
      } else {
        SignalError(ConnectionReset);
        EnterClosed();
      }
    }

    method SendRst()
      modifies this`rcv, this`wire
      ensures Value() == Spec.SendRst(old(Value()))
    {
      hide Spec.Emit;
      if Spec.SendsRstOnAbort(state) { Emit(snd.nxt, RST, [], false); }
    }

    method GiveUp(why: ErrorSignal)
      modifies this
      ensures Value() == Spec.GiveUp(old(Value()), why)
    {
      hide Spec.EnterClosed, Spec.SendRst;
      SendRst();
      SignalError(why);
      EnterClosed();
    }

    method ProcessFin()
      modifies this
      ensures Value() == Spec.ProcessFin(old(Value()))
    {
      hide Spec.SendAck, Spec.SetState, Spec.EnterTimeWait;
      rcv := rcv.(pendingFin := None);
      rcv := rcv.(nxt := Add(rcv.nxt, 1));
      rcv := rcv.(peerFin := true);
      hist := hist.(fins := hist.fins + 1);
      SendAck();
      match state
      case ESTABLISHED => SetState(CLOSE_WAIT);
      case FIN_WAIT_1 => SetState(CLOSING);
      case FIN_WAIT_2 => EnterTimeWait();
      case _ =>
    }

    method CheckPendingFin()
      modifies this
      ensures Value() == Spec.CheckPendingFin(old(Value()))
    {
      hide Spec.ProcessFin;
      if rcv.pendingFin.Some? && rcv.nxt == rcv.pendingFin.value { ProcessFin(); }
    }

    // -------------------------------------------------------------------------------------------
    // SEGMENT ARRIVES
    // -------------------------------------------------------------------------------------------

    method OnSegment(seg: Segment)
      modifies this
      ensures Value() == Spec.OnSegment(old(Value()), seg)
    {
      hide Spec.RestartKeepalive, Spec.HandleClosed, Spec.HandleListen, Spec.HandleSynSent, Spec.HandleSynchronized;
      if localPort != 0 && seg.dstPort != 0 && seg.dstPort != localPort { return; }
      if state == ESTABLISHED { RestartKeepalive(true); }
      match state
      case CLOSED => HandleClosed(seg);
      case LISTEN => HandleListen(seg);
      case SYN_SENT => HandleSynSent(seg);
      case _ => HandleSynchronized(seg);
    }

    method HandleClosed(seg: Segment)
      modifies this`wire
      ensures Value() == Spec.HandleClosed(old(Value()), seg)
    {
      hide Spec.EmitRstReply;
      if seg.flags.rst { return; }
      if seg.flags.ack {
        EmitRstReply(seg, seg.ackNo, 0, false);
      } else {
        EmitRstReply(seg, 0, Add(seg.seqNo, seg.SegLen()), true);
      }
    }

    method HandleListen(seg: Segment)
      modifies this
      ensures Value() == Spec.HandleListen(old(Value()), seg)
    {
      hide Spec.EmitRstReply, Spec.QueueAndSend, Spec.SetState, Spec.AnswerSyn;
      if seg.flags.rst { return; }
      if seg.flags.ack {
        EmitRstReply(seg, seg.ackNo, 0, false);
        return;
      }
      if !seg.flags.syn { return; }
      if remotePort != 0 && seg.srcPort != 0 && seg.srcPort != remotePort { return; }
      if remotePort == 0 { remotePort := seg.srcPort; }
      AnswerSyn(seg);
      SetState(SYN_RECEIVED);
      QueueAndSend(SYN_ACK, [], true);
    }

    method AnswerSyn(seg: Segment)
      modifies this
      ensures Value() == Spec.AnswerSyn(old(Value()), seg)
    {
      hide Spec.NumbersFromSyn;
      rcv := rcv.(irs := seg.seqNo, nxt := Add(seg.seqNo, 1));
      AdoptMss(seg);
      NumberFromSyn(seg);
      NumbersKeepMss(old(snd), Spec.PeerMss(old(Value()), seg), seg);
      hist := hist.(unaPos := 0, since := |wire|);
    }

    method AdoptMss(seg: Segment)
      modifies this`snd
      ensures snd == old(snd).(mss := Spec.PeerMss(old(Value()), seg))
    {
      if seg.mss.Some? && seg.mss.value != 0 { snd := snd.(mss := Min(cfg.mss, seg.mss.value)); }
    }

    method NumberFromSyn(seg: Segment)
      modifies this`snd
      ensures snd == Spec.NumbersFromSyn(old(snd), cfg.iss, seg)
    {
      snd := snd.(iss := cfg.iss);
      snd := snd.(una := snd.iss, nxt := snd.iss);
      snd := snd.(wnd := seg.window, wl1 := seg.seqNo, wl2 := snd.iss);
    }

    lemma NumbersKeepMss(s: SendSide, mss: segsize, seg: Segment)
      ensures Spec.NumbersFromSyn(s.(mss := mss), cfg.iss, seg) == Spec.NumbersFromSyn(s, cfg.iss, seg).(mss := mss)
    {
    }

    method TakeSyn(seg: Segment)
      modifies this
      ensures Value() == Spec.TakeSyn(old(Value()), seg)
    {
      hide Spec.ProcessAck, Spec.PeerMss, Spec.FirstWindow;
      rcv := rcv.(irs := seg.seqNo);
      rcv := rcv.(nxt := Add(seg.seqNo, 1));
      MssIgnoresNumbers(old(Value()), Value(), seg);
      AdoptMss(seg);
      if seg.flags.ack { ProcessAck(seg.ackNo); }
      FirstWindow(seg);
    }

    static lemma MssIgnoresNumbers(e: Engine, f: Engine, seg: Segment)
      requires e.cfg == f.cfg && e.snd == f.snd
      ensures Spec.PeerMss(e, seg) == Spec.PeerMss(f, seg)
    {
    }

    method FirstWindow(seg: Segment)
      modifies this`snd
      ensures Value() == Spec.FirstWindow(old(Value()), seg)
    {
      snd := snd.(wnd := seg.window);
      snd := snd.(wl1 := seg.seqNo);
      snd := snd.(wl2 := if seg.flags.ack then seg.ackNo else snd.una);
    }

    method HoldSynData(seg: Segment)
      modifies this`rcv
      ensures Value() == Spec.HoldSynData(old(Value()), seg)
    {
      hide Spec.StoreOoo;
      if seg.payload != [] { StoreOoo(Add(seg.seqNo, 1), seg.payload); }
      if seg.flags.fin { rcv := rcv.(pendingFin := Some(Add(Add(seg.seqNo, 1), |seg.payload|))); }
    }

    method SimultaneousOpen(seg: Segment)
      modifies this
      ensures Value() == Spec.SimultaneousOpen(old(Value()), seg)
    {
      hide Spec.HoldSynData, Spec.SetState, Spec.Emit;
      SetState(SYN_RECEIVED);
      if snd.retx != [] && snd.retx[0].flags.syn {
        var o := snd.retx[0];
        o := o.(flags := o.flags.(ack := true), copies := o.copies + 1);
        snd := snd.(retx := [o] + snd.retx[1..]);
      }
      HoldSynData(seg);
      Emit(snd.iss, SYN_ACK, [], true);
    }

    method HandleSynSent(seg: Segment)
      modifies this
      ensures Value() == Spec.HandleSynSent(old(Value()), seg)
    {
      hide Spec.EmitRstReply, Spec.EnterClosed, Spec.SetState, Spec.SendAck, Spec.SendPending, Spec.TakeSyn,
        Spec.HandleSynchronized, Spec.SimultaneousOpen, SeqLeq, SeqGt, Between;
      var ackOk := false;
      if seg.flags.ack {
        if SeqLeq(seg.ackNo, snd.iss) || SeqGt(seg.ackNo, snd.nxt) {
          if !seg.flags.rst { EmitRstReply(seg, seg.ackNo, 0, false); }
          return;
        }
        if Between(snd.una, seg.ackNo, snd.nxt) { ackOk := true; }
      }
      if seg.flags.rst {
        if ackOk {
          SignalError(ConnectionRefused);
          EnterClosed();
        }
        return;
      }
      if !seg.flags.syn { return; }
      TakeSyn(seg);
      if SeqGt(snd.una, snd.iss) {
        SetState(ESTABLISHED);
        SendAck();
        SendPending();
        if seg.payload != [] || seg.flags.fin {
          HandleSynchronized(seg.(flags := seg.flags.(syn := false), seqNo := Add(seg.seqNo, 1)));
        }
      } else {
        SimultaneousOpen(seg);
      }
    }

    method HandleTimeWait(seg: Segment)
      modifies this
      ensures Value() == Spec.HandleTimeWait(old(Value()), seg)
    {
      hide Spec.EnterClosed, Spec.SendAck, Spec.RestartTimeWait;
      if seg.flags.rst {
        if seg.seqNo == rcv.nxt { EnterClosed(); } else { SendAck(); }
        return;
      }
      SendAck();
      if seg.flags.fin { RestartTimeWait(); }
    }

    method HandleSynchronized(seg: Segment)
      modifies this
      ensures Value() == Spec.HandleSynchronized(old(Value()), seg)
    {
      hide Spec.HandleTimeWait, Spec.SendAck, Spec.DoReset, Spec.HandleAck, Spec.RcvWnd, Acceptable;
      if state == TIME_WAIT {
        HandleTimeWait(seg);
        return;
      }
      if !Acceptable(seg.seqNo, seg.SegLen(), rcv.nxt, Spec.RcvWnd(Value())) {
        if !seg.flags.rst { SendAck(); }
        return;
      }
      if seg.flags.rst {
        if seg.seqNo == rcv.nxt { DoReset(); } else { SendAck(); }
        return;
      }
      if seg.flags.syn {
        SendAck();
        return;
      }
      if !seg.flags.ack { return; }
      HandleAck(seg);
    }

    method HandleAck(seg: Segment)
      modifies this
      ensures Value() == Spec.HandleAck(old(Value()), seg)
    {
      hide Spec.Establish, Spec.EmitRstReply, Spec.SendAck, Spec.AckAndWindow, Spec.SetState,
        Spec.EnterTimeWait, Spec.EnterClosed, Spec.TextAndFin, SeqLt, SeqLeq, SeqGt;
      if state == SYN_RECEIVED {
        if SeqLt(snd.una, seg.ackNo) && SeqLeq(seg.ackNo, snd.nxt) {
          Establish(seg);
        } else {
          EmitRstReply(seg, seg.ackNo, 0, false);
          return;
        }
      } else {
        if SeqGt(seg.ackNo, snd.nxt) {
          SendAck();
          return;
        }
        AckAndWindow(seg);
        if state == FIN_WAIT_1 && snd.finAcked {
          SetState(FIN_WAIT_2);
        } else if state == CLOSING && snd.finAcked {
          EnterTimeWait();
          return;
        } else if state == LAST_ACK && snd.finAcked {
          EnterClosed();
          return;
        }
      }
      TextAndFin(seg);
    }

    method Establish(seg: Segment)
      modifies this
      ensures Value() == Spec.Establish(old(Value()), seg)
    {
      hide Spec.ProcessAck, Spec.SetState, Spec.Merge, Spec.SendPending;
      ProcessAck(seg.ackNo);
      snd := snd.(wnd := seg.window, wl1 := seg.seqNo, wl2 := seg.ackNo);
      SetState(ESTABLISHED);
      Merge();
      SendPending();
    }

    method AckAndWindow(seg: Segment)
      modifies this
      ensures Value() == Spec.AckAndWindow(old(Value()), seg)
    {
      hide Spec.ProcessAck, Spec.UpdateWindow, SeqGt;
      if SeqGt(seg.ackNo, snd.una) { ProcessAck(seg.ackNo); }
      UpdateWindow(seg);
    }

    method UpdateWindow(seg: Segment)
      modifies this
      ensures Value() == Spec.UpdateWindow(old(Value()), seg)
    {
      hide Spec.CancelPersist, SeqLt, SeqLeq;
      if SeqLt(snd.wl1, seg.seqNo) || (snd.wl1 == seg.seqNo && SeqLeq(snd.wl2, seg.ackNo)) {
        var was := snd.wnd;
        snd := snd.(wnd := seg.window, wl1 := seg.seqNo, wl2 := seg.ackNo);
        if snd.wnd > 0 && was == 0 { CancelPersist(); }
      }
    }

    method TextAndFin(seg: Segment)
      modifies this
      ensures Value() == Spec.TextAndFin(old(Value()), seg)
    {
      hide Spec.RecvData, Spec.SendPending, Spec.NoteFin, Spec.CheckPendingFin;
      NoPayloadNoText(Value(), seg);
      if seg.payload != [] && (state == ESTABLISHED || state == FIN_WAIT_1 || state == FIN_WAIT_2) { RecvData(seg); }
      SendPending();
      if seg.flags.fin { NoteFin(seg); } else { NoFinNoNote(Value(), seg); }
      CheckPendingFin();
    }

    method NoteFin(seg: Segment)
      requires seg.flags.fin
      modifies this
      ensures Value() == Spec.NoteFin(old(Value()), seg)
    {
      hide Spec.ProcessFin, SeqGt;
      var finSeq := Add(seg.seqNo, |seg.payload|);
      if rcv.nxt == finSeq {
        ProcessFin();
      } else if SeqGt(finSeq, rcv.nxt) {
        rcv := rcv.(pendingFin := Some(finSeq));
      }
    }

    static lemma NoPayloadNoText(e: Engine, seg: Segment)
      ensures seg.payload == [] ==> Spec.RecvData(e, seg) == e
    {
    }

    static lemma NoFinNoNote(e: Engine, seg: Segment)
      ensures !seg.flags.fin ==> Spec.NoteFin(e, seg) == e
    {
    }

    // -------------------------------------------------------------------------------------------
    // User calls
    // -------------------------------------------------------------------------------------------

    method ActiveOpen() returns (r: Outcome<()>)
      modifies this
      ensures (Value(), r) == Spec.ActiveOpen(old(Value()))
    {
      hide Spec.SetState, Spec.QueueAndSend;
      if state != CLOSED && state != LISTEN { return Refused(AlreadyExists); }
      passive := false;
      snd := snd.(iss := cfg.iss);
      snd := snd.(una := snd.iss, nxt := snd.iss, wnd := 0);
      hist := hist.(started := true, unaPos := 0, since := |wire|);
      SetState(SYN_SENT);
      QueueAndSend(SYN, [], true);
      return Done(());
    }

    method PassiveOpen() returns (r: Outcome<()>)
      modifies this
      ensures (Value(), r) == Spec.PassiveOpen(old(Value()))
    {
      hide Spec.SetState;
      if state != CLOSED { return Refused(AlreadyExists); }
      passive := true;
      hist := hist.(started := true);
      SetState(LISTEN);
      return Done(());
    }

    method Open(active: bool, remote: Option<u16>, local: Option<u16>, timeout: Option<real>) returns (r: Outcome<()>)
      modifies this
      ensures (Value(), r) == Spec.OpenCall(old(Value()), active, remote, local, timeout)
    {
      hide Spec.ActiveOpen, Spec.PassiveOpen;
      if remote.Some? { remotePort := remote.value; }
      if local.Some? { localPort := local.value; }
      if timeout.Some? { tm := tm.(userTimeout := timeout); }
      if active { r := ActiveOpen(); } else { r := PassiveOpen(); }
    }

    method Send(data: seq<byte>, timeout: Option<real>) returns (r: Outcome<nat>)
      modifies this
      ensures (Value(), r) == Spec.Send(old(Value()), data, timeout)
    {
      hide Spec.SendPending, Spec.Open;
      if state == CLOSED { return Refused(DoesNotExist); }
      if Spec.IsClosing(state) || snd.finPending { return Refused(Closing); }
      if timeout.Some? { tm := tm.(userTimeout := timeout); }
      snd := snd.(appBuf := snd.appBuf + data);
      hist := hist.(accepted := hist.accepted + data);
      if state == LISTEN {
        if remotePort == 0 { return Refused(ForeignSocketUnspecified); }
        var _ := ActiveOpen();
        return Done(|data|);
      }
      if state == ESTABLISHED || state == CLOSE_WAIT { SendPending(); }
      return Done(|data|);
    }

    method Receive(maxLen: nat) returns (r: Outcome<seq<byte>>)
      modifies this
      ensures (Value(), r) == Spec.Receive(old(Value()), maxLen)
    {
      hide Spec.SendAck, Spec.RcvWnd;
      if state == CLOSED { return Refused(DoesNotExist); }
      if state == CLOSING || state == LAST_ACK || state == TIME_WAIT { return Refused(Closing); }
      if state == CLOSE_WAIT && rcv.buf == [] { return Refused(Closing); }
      var n := Min(maxLen, |rcv.buf|);
      var data := rcv.buf[..n];
      rcv := rcv.(buf := rcv.buf[n..]);
      if data != [] && rcv.zeroWin && Spec.RcvWnd(Value()) > 0 {
        rcv := rcv.(zeroWin := false);
        SendAck();
      }
      return Done(data);
    }

    method Close() returns (r: Outcome<()>)
      modifies this
      ensures (Value(), r) == Spec.Close(old(Value()))
    {
      hide Spec.SendPending, Spec.EnterClosed;
      if state == CLOSED { return Refused(DoesNotExist); }
      if Spec.IsClosing(state) { return Refused(Closing); }
      if state == LISTEN || state == SYN_SENT {
        EnterClosed();
      } else {
        snd := snd.(finPending := true);
        SendPending();
      }
      return Done(());
    }

    method Abort() returns (r: Outcome<()>)
      modifies this
      ensures (Value(), r) == Spec.Abort(old(Value()))
    {
      hide Spec.SendRst, Spec.EnterClosed;
      if state == CLOSED { return Refused(DoesNotExist); }
      SendRst();
      EnterClosed();
      return Done(());
    }

    // -------------------------------------------------------------------------------------------
    // Timer callbacks
    // -------------------------------------------------------------------------------------------

    method OnRto()
      modifies this
      ensures Value() == Spec.OnRto(old(Value()))
    {
      hide Spec.GiveUp, Spec.Retransmit, Spec.UserTimedOut;
      tm := tm.(rt := None);
      if snd.retx == [] { return; }
      if Spec.UserTimedOut(Value()) {
        GiveUp(UserTimeout);
        return;
      }
      tm := tm.(rtoCount := tm.rtoCount + 1);
      if tm.rtoCount > cfg.timers.maxRetransmits {
        GiveUp(RetransmissionTimeout);
        return;
      }
      Retransmit();
    }

    method Retransmit()
      requires snd.retx != []
      modifies this
      ensures Value() == Spec.Retransmit(old(Value()))
    {
      hide Spec.Emit, Spec.RttBackoff;
      rtt := Spec.RttBackoff(cfg.timers, rtt);
      var o := snd.retx[0];
      o := o.(retransmitted := true, sentTime := tm.now, copies := o.copies + 1);
      snd := snd.(rttPending := None, retx := [o] + snd.retx[1..]);
      Emit(o.seqNo, o.flags, o.payload, o.flags.syn);
      tm := tm.(rt := Spec.Later(tm, rtt.rto));
    }

    method OnPersist()
      modifies this
      ensures Value() == Spec.OnPersist(old(Value()))
    {
      hide Spec.SendPending, Spec.QueueAndSend, Spec.SendFin;
      tm := tm.(persist := None);
      if snd.wnd > 0 {
        SendPending();
        return;
      }
      if snd.appBuf != [] {
        var chunk := snd.appBuf[..1];
        snd := snd.(appBuf := snd.appBuf[1..]);
        QueueAndSend(ACK, chunk, false);
      } else if snd.finPending && !snd.finSent {
        SendFin();
      } else {
        return;
      }
      RearmPersist();
    }

    method RearmPersist()
      modifies this`tm
      ensures Value() == Spec.RearmPersist(old(Value()))
    {
      tm := tm.(persistBackoff := MinR(MaxR(tm.persistBackoff * 2.0, cfg.timers.persistMin), cfg.timers.persistMax));
      tm := tm.(persist := Spec.Later(tm, tm.persistBackoff));
    }

    method OnTimeWait()
      modifies this
      ensures Value() == Spec.OnTimeWait(old(Value()))
    {
      hide Spec.EnterClosed;
      tm := tm.(tw := None);
      EnterClosed();
    }

    method OnDelack()
      modifies this
      ensures Value() == Spec.OnDelack(old(Value()))
    {
      hide Spec.SendAck;
      tm := tm.(ack := None);
      SendAck();
    }

    method OnKeepalive()
      modifies this
      ensures Value() == Spec.OnKeepalive(old(Value()))
    {
      hide Spec.RestartKeepalive, Spec.GiveUp, Spec.Emit, Sub;
      tm := tm.(ka := None);
      if cfg.timers.keepaliveIdle.None? || state != ESTABLISHED { return; }
      if snd.retx != [] {
        RestartKeepalive(false);
        return;
      }
      if tm.kaProbes >= cfg.timers.keepaliveCount {
        GiveUp(KeepaliveTimeout);
        return;
      }
      Emit(Sub(snd.una, 1), ACK, [], false);
      tm := tm.(kaProbes := tm.kaProbes + 1);
      RestartKeepalive(false);
    }
  }
}
