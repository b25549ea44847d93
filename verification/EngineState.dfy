/** The data the engine keeps: segments, the transmission control block, queues, timers, and the history
    that the properties speak about. */
module EngineState {
  import opened SeqNum

  datatype Option<+T> = None | Some(value: T)

  type byte = x: int | 0 <= x < 0x100
  type u16 = x: int | 0 <= x < 0x1_0000
  type segsize = x: int | 0 < x < 0x1_0000 witness 1

  function Min(a: int, b: int): int { if a <= b then a else b }
  function Max(a: int, b: int): int { if a <= b then b else a }
  function MinR(a: real, b: real): real { if a <= b then a else b }
  function MaxR(a: real, b: real): real { if a <= b then b else a }

  // ---------------------------------------------------------------------------------------------
  // Segments
  // ---------------------------------------------------------------------------------------------

  datatype Flags = Flags(fin: bool, syn: bool, rst: bool, psh: bool, ack: bool, urg: bool, ece: bool, cwr: bool)

  const NONE := Flags(false, false, false, false, false, false, false, false)
  const ACK := NONE.(ack := true)
  const SYN := NONE.(syn := true)
  const SYN_ACK := ACK.(syn := true)
  const FIN_ACK := ACK.(fin := true)
  const RST := NONE.(rst := true)
  const RST_ACK := ACK.(rst := true)

  function Bit(b: bool): nat { if b then 1 else 0 }

  /** Length in sequence space: data, and one each for SYN and FIN. */
  function SpaceLen(f: Flags, payload: seq<byte>): nat {
    |payload| + Bit(f.syn) + Bit(f.fin)
  }

  datatype Segment = Segment(
    srcPort: u16, dstPort: u16, seqNo: u32, ackNo: u32, flags: Flags, window: nat,
    checksum: u16, urgentPtr: u16, payload: seq<byte>,
    mss: Option<u16>, wscale: Option<byte>, rawOptions: seq<byte>)
  {
    function SegLen(): nat { SpaceLen(flags, payload) }
  }

  /** The wire carries the low 16 bits of the window. */
  function OffWire(seg: Segment): Segment { seg.(window := seg.window % 0x1_0000) }

  // ---------------------------------------------------------------------------------------------
  // Configuration and connection state
  // ---------------------------------------------------------------------------------------------

  datatype ConnState = CLOSED | LISTEN | SYN_SENT | SYN_RECEIVED | ESTABLISHED | FIN_WAIT_1 | FIN_WAIT_2
                     | CLOSE_WAIT | CLOSING | LAST_ACK | TIME_WAIT

  datatype TimerConfig = TimerConfig(
    rtoInitial: real, rtoMin: real, rtoMax: real, rttG: real, maxRetransmits: nat,
    persistMin: real, persistMax: real,
    keepaliveIdle: Option<real>, keepaliveInterval: real, keepaliveCount: nat,
    msl: real, delayedAck: Option<real>, nagle: bool, swsAvoidance: bool)

  /** Constructor arguments. `iss` is the initial send sequence number the engine will use, configured or
      drawn; `streaming` says that an `on_data` sink is installed, so data does not stay in `recv_buf`. */
  datatype Config = Config(remotePort: u16, mss: segsize, rcvWnd: nat, iss: u32, streaming: bool, timers: TimerConfig)

  /** A sent but unacknowledged segment. `pos` (its unwrapped position) and `copies` (how many times it was
      put on the wire) are history: no operation reads them. */
  datatype Outgoing = Outgoing(seqNo: u32, flags: Flags, payload: seq<byte>, sentTime: real, retransmitted: bool,
                               pos: int, copies: nat)
  {
    function SegLen(): nat { SpaceLen(flags, payload) }
    function End(): u32 { Add(seqNo, SegLen()) }
    function EndPos(): int { pos + SegLen() }
  }

  /** An out-of-order block of the receiver; `pos` is history. */
  datatype Block = Block(seqNo: u32, data: seq<byte>, pos: int)
  {
    function End(): u32 { Add(seqNo, |data|) }
    function EndPos(): int { pos + |data| }
  }

  datatype SendSide = SendSide(
    iss: u32, una: u32, nxt: u32, wnd: nat, wl1: u32, wl2: u32, mss: segsize,
    appBuf: seq<byte>, retx: seq<Outgoing>,
    finPending: bool, finSent: bool, finAcked: bool, finSeq: u32,
    rttPending: Option<(u32, real)>)

  datatype RecvSide = RecvSide(
    irs: u32, nxt: u32, buf: seq<byte>, ooo: seq<Block>,
    peerFin: bool, pendingFin: Option<u32>, advRight: Option<u32>, zeroWin: bool)

  /** The clock as the engine sees it, and each timer as the deadline of its live handle. The engine drops a
      handle whenever it cancels it, so a handle it still holds is never a cancelled one. */
  datatype Timers = Timers(
    now: real, rt: Option<real>, persist: Option<real>, persistBackoff: real, tw: Option<real>,
    ack: Option<real>, ackCount: nat, rtoCount: nat, ka: Option<real>, kaProbes: nat,
    unaSince: Option<real>, userTimeout: Option<real>)

  datatype Rtt = Rtt(srtt: Option<real>, rttvar: real, rto: real)

  // ---------------------------------------------------------------------------------------------
  // History
  // ---------------------------------------------------------------------------------------------

  datatype ErrorSignal = ConnectionRefused | ConnectionReset | UserTimeout | RetransmissionTimeout | KeepaliveTimeout

  /** Calls of `on_state_change` and `on_error`. */
  datatype Signal = StateChange(from: ConnState, to: ConnState) | Error(what: ErrorSignal)

  /** One call of `tx`: the segment, and the unwrapped positions of its SEQ and ACK fields in the sender's
      and in the peer's sequence space; `upTo` is how far the sender's stream went then, this packet included,
      and `fins` how many FINs of the peer it had consumed. The wire carries only `seg`. */
  datatype Packet = Packet(seg: Segment, pos: int, ackPos: int, upTo: int, fins: nat)

  /** `accepted`: bytes the application handed to SEND. `sent`: bytes cut from the application buffer into
      segments. `delivered`: bytes handed to the application side, through `on_data` or `recv_buf`.
      `fins`: how many FINs of the peer were consumed. `unaPos`: SND.UNA unwrapped.
      `since`: how much had been sent when the present connection attempt began. */
  datatype History = History(
    started: bool, synOut: bool, accepted: seq<byte>, sent: seq<byte>, finOut: bool, unaPos: nat,
    delivered: seq<byte>, fins: nat, since: nat)

  datatype Engine = Engine(
    cfg: Config, localPort: u16, remotePort: u16, passive: bool, state: ConnState,
    snd: SendSide, rcv: RecvSide, tm: Timers, rtt: Rtt,
    hist: History, wire: seq<Packet>, signals: seq<Signal>)

  /** SND.NXT unwrapped: the SYN is position 0, byte i of the stream is position 1 + i, the FIN follows. */
  function SentEnd(h: History): int {
    if h.synOut then 1 + |h.sent| + Bit(h.finOut) else 0
  }

  /** RCV.NXT unwrapped. */
  function RecvPos(h: History): int { 1 + |h.delivered| + h.fins }

  /** Unwrapped position of a sequence number at or below SND.NXT. */
  function PosOf(e: Engine, sn: u32): int { SentEnd(e.hist) - Sub(e.snd.nxt, sn) }

  datatype Refusal = DoesNotExist | AlreadyExists | Closing | ForeignSocketUnspecified

  datatype Outcome<+T> = Done(value: T) | Refused(why: Refusal)

  /** A fresh engine: the constructor of the source. */
  function Fresh(cfg: Config, localPort: u16, userTimeout: Option<real>, now: real): Engine {
    Engine(cfg, localPort, cfg.remotePort, false, CLOSED,
      SendSide(0, 0, 0, 0, 0, 0, cfg.mss, [], [], false, false, false, 0, None),
      RecvSide(0, 0, [], [], false, None, None, false),
      Timers(now, None, None, cfg.timers.persistMin, None, None, 0, 0, None, 0, None, userTimeout),
      Rtt(None, 0.0, cfg.timers.rtoInitial),
      History(false, false, [], [], false, 0, [], 0, 0), [], [])
  }
}
