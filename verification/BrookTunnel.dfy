/** The tunnel in the form of the program: one object whose fields are the variables that
    the callbacks and tasks of a run share, grouped by the task that owns them, and one
    method for each thing that can happen. The two nonces are buffers stepped in place.
    Every method takes the object's state where the state machine goes, so what holds of
    all runs of the machine holds of the object that is driven by the same events. */
module BrookTunnelClass {
  import opened Bytes
  import opened Nonces
  import opened Aead
  import opened Framing
  import opened Decoder
  import opened Tunnel
  import opened TunnelInv
  import opened TunnelRuns
  import opened TunnelResults

  /** The counters all tunnels of the program share. */
  class GlobalMetrics {
    var rxQueuedBytes: int
    var uploadPendingBytes: int

    constructor ()
      ensures rxQueuedBytes == 0 && uploadPendingBytes == 0
    {
      rxQueuedBytes, uploadPendingBytes := 0, 0;
    }
  }

  class BrookTunnel {
    const cfg: Config
    const metrics: GlobalMetrics
    const clientNonce: array<byte>
    const serverNonce: array<byte>
    var life: Life
    var rxQueuedBytes: int
    var rx: Receive
    var main: Main
    ghost var log: Log

    ghost predicate Valid() {
      GoodConfig(cfg) && clientNonce.Length == 12 && serverNonce.Length == 12 && clientNonce != serverNonce
    }

    /** The state of the machine that this object represents. The gauges live in the metrics
        and the nonces in their buffers; their places in the records are not used. */
    ghost function View(): State
      requires Valid()
      reads this, metrics, clientNonce, serverNonce
    {
      State(life, Acct(rxQueuedBytes, metrics.rxQueuedBytes), RxView(), log, MainView())
    }

    ghost function RxView(): Receive
      requires Valid()
      reads this`rx, serverNonce
    {
      rx.(d := rx.d.(sn := serverNonce[..]))
    }

    ghost function MainView(): Main
      requires Valid()
      reads this`main, metrics`uploadPendingBytes, clientNonce
    {
      main.(u := main.u.(cn := clientNonce[..]), upGauge := metrics.uploadPendingBytes)
    }

    constructor (cfg: Config, metrics: GlobalMetrics)
      requires GoodConfig(cfg)
      ensures Valid() && fresh(clientNonce) && fresh(serverNonce)
      ensures this.cfg == cfg && this.metrics == metrics
      ensures View() == Init(cfg, metrics.rxQueuedBytes, metrics.uploadPendingBytes)
    {
      var s := Init(cfg, 0, 0);
      var cn := new byte[12](i requires 0 <= i < 12 => cfg.cn[i]);
      var sn := new byte[12](_ => 0);
      this.cfg, this.metrics, clientNonce, serverNonce := cfg, metrics, cn, sn;
      life, rxQueuedBytes, rx, main, log := s.life, 0, s.rx, s.main, s.log;
      new;
      assert clientNonce[..] == cfg.cn && serverNonce[..] == ZERO;
    }

    // Timers and cleanup.

    method ResetIdleTimer()
      requires Valid()
      modifies this`life
      ensures View() == ResetIdle(old(View()))
    {
      hide GoodConfig, MainView;
      if !life.terminated {
        life := life.(idleArmed := true);
      }
    }

    method CleanupReply()
      requires Valid()
      modifies this`life
      ensures life == CleanToReply(cfg, RxView(), old(life))
    {
      if !rx.handshakeDone && !rx.successSent && cfg.lastAttempt {
        life := life.(failureSent := true, cleanPc := CleanReply);
      } else {
        CleanupCancel();
      }
    }

    method CleanupCancel()
      requires Valid()
      modifies this`life
      ensures life == CleanToCancel(cfg, RxView(), old(life))
    {
      if cfg.lastAttempt || rx.handshakeDone {
        life := life.(cancelled := true, cleanPc := CleanCancel);
      } else {
        life := life.(cleanPc := CleanDone);
      }
    }

    /** What is still queued no longer counts. */
    method ReleaseQueue()
      modifies this`rxQueuedBytes, metrics`rxQueuedBytes
      ensures Acct(rxQueuedBytes, metrics.rxQueuedBytes) ==
              ReleaseQueued(Acct(old(rxQueuedBytes), old(metrics.rxQueuedBytes)))
    {
      if rxQueuedBytes > 0 {
        metrics.rxQueuedBytes := Max(0, metrics.rxQueuedBytes - rxQueuedBytes);
        rxQueuedBytes := 0;
      }
    }

    method Terminate(why: Reason)
      modifies this`life
      ensures var l := old(life);
              life == l.(terminated := true, reason := why, cleanups := l.cleanups + 1,
                         hs := if !rx.handshakeDone && l.hs == HsPending then HsRejected else l.hs,
                         dialArmed := false, idleArmed := false)
    {
      life := life.(terminated := true, reason := why, cleanups := life.cleanups + 1);
      if !rx.handshakeDone && life.hs == HsPending {
        life := life.(hs := HsRejected);
      }
      life := life.(dialArmed := false, idleArmed := false);
    }

    method CleanUp(why: Reason)
      requires Valid()
      modifies this`life, this`rxQueuedBytes, metrics`rxQueuedBytes
      ensures View() == Cleanup(cfg, old(View()), why)
    {
      hide CleanToReply, ReleaseQueued, GoodConfig, MainView;
      if life.cleanPc != NoCleanup {
        return;
      }
      Terminate(why);
      ReleaseQueue();
      if life.activeWrite {
        life := life.(cleanPc := CleanWrite);
      } else {
        CleanupReply();
      }
    }

    /** The cleanup task goes on after an await. */
    method ResumeCleanup()
      requires Valid()
      modifies this`life
      ensures View() == Step(cfg, old(View()), CleanResume)
    {
      hide CleanToReply, CleanToCancel, GoodConfig, MainView;
      match life.cleanPc
      case CleanWrite =>
        life := life.(activeWrite := false);
        CleanupReply();
      case CleanReply => CleanupCancel();
      case CleanCancel =>
        if !life.writeClosed {
          life := life.(writeClosed := true, cleanPc := CleanClose);
        } else {
          life := life.(cleanPc := CleanDone);
        }
      case CleanClose => life := life.(cleanPc := CleanDone);
      case _ =>
    }

    method CheckFullClosed()
      requires Valid()
      modifies this`life, this`rxQueuedBytes, metrics`rxQueuedBytes
      ensures View() == CheckFullClose(cfg, old(View()))
    {
      hide Cleanup;
      if main.readClosed && rx.finReceived {
        if !rx.handshakeDone {
          CleanUp(ClientAbort);
        } else if rx.d.expected != -1 || |rx.d.buf| - rx.d.off > 0 {
          CleanUp(FramingError);
        } else if rx.recv == 0 {
          CleanUp(TargetDialRefused);
        } else {
          CleanUp(BothClosed);
        }
      }
    }

    // The receive buffer and the server's nonce.

    method PushQueue(item: Item)
      requires Valid()
      modifies this`rx
      ensures RxView() == old(RxView()).(queue := old(RxView()).queue + [item])
    {
      hide GoodConfig;
      rx := rx.(queue := rx.queue + [item]);
    }

    /** The data that comes in is queued and counted. */
    method QueueData(data: bytes, fin: bool)
      requires Valid()
      modifies this`rx, this`log, this`rxQueuedBytes, metrics`rxQueuedBytes
      ensures View() == Enqueue(old(View()), data, fin)
    {
      hide GoodConfig, MainView, RxView;
      rxQueuedBytes := rxQueuedBytes + |data|;
      metrics.rxQueuedBytes := metrics.rxQueuedBytes + |data|;
      log := log.(received := log.received + data, finSeen := log.finSeen || fin);
      PushQueue(Item(data, fin));
    }

    method ShiftQueue() returns (data: bytes)
      requires Valid() && rx.queue != []
      modifies this`rx, this`rxQueuedBytes, metrics`rxQueuedBytes
      ensures var s := old(View());
              data == s.rx.queue[0].data && View() == s.(rx := Pop(s.rx), acct := Unqueue(s.acct, |data|))
      ensures rx.queue == old(rx.queue)[1..]
    {
      hide GoodConfig, MainView;
      var item := rx.queue[0];
      data := item.data;
      rx := rx.(queue := rx.queue[1..], curFin := item.fin);
      rxQueuedBytes := rxQueuedBytes - |data|;
      metrics.rxQueuedBytes := Max(0, metrics.rxQueuedBytes - |data|);
    }

    /** What is left of the buffer and the new data make the new buffer. */
    method AppendData(data: bytes)
      requires Valid()
      modifies this`rx
      ensures RxView() == old(RxView()).(d := Feed(old(RxView()).d, data))
    {
      hide GoodConfig;
      var d := rx.d;
      rx := rx.(d := d.(buf := d.buf[d.off..] + data, off := 0, fed := d.fed + data));
    }

    /** Only what is not consumed is kept. */
    method TrimBuffer()
      requires Valid()
      modifies this`rx
      ensures RxView() == old(RxView()).(d := Trim(old(RxView()).d))
    {
      hide GoodConfig;
      var d := rx.d;
      if d.off > 0 {
        rx := rx.(d := d.(buf := d.buf[d.off..], off := 0));
      }
    }

    method TakeServerNonce()
      requires Valid() && Available(rx.d) >= NONCE_LENGTH
      modifies this`rx, serverNonce
      ensures RxView() == old(RxView()).(d := TakeNonce(old(RxView()).d), pc := RxDerive)
    {
      hide GoodConfig;
      var d := rx.d;
      forall i | 0 <= i < NONCE_LENGTH {
        serverNonce[i] := d.buf[d.off + i];
      }
      assert serverNonce[..] == d.buf[d.off..d.off + NONCE_LENGTH];
      rx := rx.(pc := RxDerive, d := d.(snSet := true, off := d.off + NONCE_LENGTH));
    }

    /** What is taken from the buffer goes to the opener with the nonce it was sealed at. */
    method BeginOpening(flight: Flight, n: nat, pc: RxPc)
      requires Valid() && n <= Available(rx.d)
      modifies this`rx
      ensures RxView() == old(RxView()).(pc := pc, d := Taken(old(RxView()).d, flight, n))
    {
      hide GoodConfig, Taken;
      var d: Rx := rx.d.(flight := flight, off := rx.d.off + n);
      TakenKeepsNonce(rx.d, d, serverNonce[..]);
      rx := rx.(pc := pc, d := d);
    }

    /** The nonce is stepped at once; the opening is awaited. */
    method TakeLengthFrame()
      requires Valid() && Available(rx.d) >= LENGTH_FRAME
      modifies this`rx, serverNonce
      ensures RxView() == old(RxView()).(d := TakeLength(old(RxView()).d), pc := RxLength)
    {
      hide GoodConfig, Next, Taken;
      var iv, chunk := serverNonce[..], rx.d.buf[rx.d.off..rx.d.off + LENGTH_FRAME];
      BeginOpening(LengthFrame(iv, chunk), LENGTH_FRAME, RxLength);
      TakenLength(old(RxView()).d);
      JsNextNonce(serverNonce);
    }

    method TakePayloadFrame()
      requires Valid() && rx.d.expected >= 0 && Available(rx.d) >= rx.d.expected + TAG
      modifies this`rx, serverNonce
      ensures RxView() == old(RxView()).(d := TakePayload(old(RxView()).d), pc := RxPayload)
    {
      hide GoodConfig, Next, Taken;
      var n := rx.d.expected + TAG;
      var iv, chunk := serverNonce[..], rx.d.buf[rx.d.off..rx.d.off + n];
      BeginOpening(PayloadFrame(iv, chunk), n, RxPayload);
      TakenPayload(old(RxView()).d);
      JsNextNonce(serverNonce);
    }

    /** The length that a frame opens to, or None for a bad tag or a length above the limit. */
    method OpenedLength() returns (n: Option<nat>)
      requires Valid() && rx.d.flight.LengthFrame?
      ensures var d := RxView().d;
              n == OpenLength(cfg.cipher(ServerNonce(d)), d.flight.iv, d.flight.chunk)
    {
      hide GoodConfig;
      var plain := cfg.cipher(ServerNonce(rx.d)).open(rx.d.flight.iv, rx.d.flight.chunk);
      n := None;
      if plain.Some? && |plain.value| == 2 {
        var len := 256 * (plain.value[0] as int) + plain.value[1];
        n := if len > MAX_OPEN_LENGTH then None else Some(len);
      }
    }

    /** What failed to open is gone. */
    method DropFrame()
      requires Valid()
      modifies this`rx
      ensures RxView() == old(RxView()).(d := Broken(old(RxView()).d))
    {
      hide GoodConfig;
      rx := rx.(d := rx.d.(flight := Nothing, corrupt := true));
    }

    method ExpectPayload(n: nat)
      requires Valid()
      modifies this`rx
      ensures RxView() == old(RxView()).(d := Decoder.LengthOpened(old(RxView()).d, n))
    {
      hide GoodConfig;
      rx := rx.(d := rx.d.(flight := Nothing, expected := n));
    }

    method ExpectLength(p: bytes)
      requires Valid()
      modifies this`rx
      ensures RxView() == old(RxView()).(d := Decoder.PayloadOpened(old(RxView()).d, p))
    {
      hide GoodConfig;
      rx := rx.(d := rx.d.(flight := Nothing, expected := -1, frames := rx.d.frames + [p]));
    }

    // The receive task. A method that returns `waits` has run to the next await, or to the
    // end of the task; one that does not leaves off at the head of the queue loop.

    /** Wherever this leaves off, the task is on its way to `goal`. */
    ghost predicate Reaches(waits: bool, goal: State)
      requires Valid()
      reads this, metrics, clientNonce, serverNonce
    {
      goal == if waits then View() else RxLoop(cfg, View())
    }

    method RxFinish()
      requires Valid()
      modifies this`life, this`rx, this`rxQueuedBytes, metrics`rxQueuedBytes, serverNonce
      ensures View() == RxFinally(cfg, old(View()))
    {
      hide Cleanup, GoodConfig, MainView;
      rx := rx.(pc := RxIdle);
      if rx.queue != [] && !life.terminated {
        rx := rx.(microtasks := rx.microtasks + 1);
      } else if rx.transportClosed && !life.terminated && !rx.finReceived {
        CleanUp(TransportClosed);
      }
    }

    method RxGiveUp(why: Reason)
      requires Valid()
      modifies this`life, this`rx, this`rxQueuedBytes, metrics`rxQueuedBytes, serverNonce
      ensures View() == RxAbort(cfg, old(View()), why)
    {
      hide Cleanup, RxFinally, GoodConfig, MainView;
      CleanUp(why);
      RxFinish();
    }

    method RxClosed()
      requires Valid()
      modifies this`life, this`rx, this`rxQueuedBytes, metrics`rxQueuedBytes, serverNonce
      ensures View() == RxAfterClose(cfg, old(View()))
    {
      hide RxAbort, CheckFullClose, RxFinally, ResetIdle, GoodConfig;
      if rx.d.expected != -1 || rx.d.off < |rx.d.buf| {
        RxGiveUp(FramingError);
      } else if !rx.handshakeDone && rx.recv == 0 {
        RxGiveUp(TargetDialRefused);
      } else {
        CheckFullClosed();
        if rx.finReceived && !main.readClosed && !life.terminated {
          ResetIdleTimer();
        }
        RxFinish();
      }
    }

    method RxItemDone() returns (waits: bool)
      requires Valid()
      modifies this`life, this`rx, this`rxQueuedBytes, metrics`rxQueuedBytes, serverNonce
      ensures Reaches(waits, RxAfterData(cfg, old(View())))
      ensures !waits ==> rx.queue == old(rx.queue)
    {
      hide RxAfterClose, RxLoop, GoodConfig, MainView;
      waits := rx.curFin;
      if rx.curFin {
        rx := rx.(finReceived := true);
        if !life.writeClosed {
          life := life.(writeClosed := true);
          rx := rx.(pc := RxClose);
        } else {
          RxClosed();
        }
      }
    }

    /** The end of the decoding loop: only what is not consumed is kept. */
    method RxTrimmed() returns (waits: bool)
      requires Valid()
      modifies this`life, this`rx, this`rxQueuedBytes, metrics`rxQueuedBytes, serverNonce
      ensures Reaches(waits, RxTrim(cfg, old(View())))
      ensures !waits ==> rx.queue == old(rx.queue)
    {
      hide RxAfterData, RxLoop, GoodConfig, MainView, Trim;
      TrimBuffer();
      waits := RxItemDone();
    }

    method RxPayloadStep() returns (waits: bool)
      requires Valid()
      modifies this`life, this`rx, this`rxQueuedBytes, metrics`rxQueuedBytes, serverNonce
      ensures Reaches(waits, RxToPayload(cfg, old(View())))
      ensures !waits ==> rx.queue == old(rx.queue)
    {
      hide RxTrim, RxLoop, GoodConfig, MainView;
      var d := rx.d;
      if d.expected < 0 || |d.buf| - d.off < d.expected + TAG {
        waits := RxTrimmed();
      } else {
        waits := true;
        TakePayloadFrame();
      }
    }

    /** One turn of the decoding loop, up to its await. */
    method RxDecodeStep() returns (waits: bool)
      requires Valid()
      modifies this`life, this`rx, this`rxQueuedBytes, metrics`rxQueuedBytes, serverNonce
      ensures Reaches(waits, RxDecode(cfg, old(View())))
      ensures !waits ==> rx.queue == old(rx.queue)
    {
      hide RxTrim, RxToPayload, RxLoop, GoodConfig, MainView;
      if rx.handshakeDone && !life.terminated {
        if rx.d.expected != -1 {
          waits := RxPayloadStep();
          return;
        }
        if |rx.d.buf| - rx.d.off >= LENGTH_FRAME {
          waits := true;
          TakeLengthFrame();
          return;
        }
      }
      waits := RxTrimmed();
    }

    /** New bytes: append them to what is left in the buffer, then nonce or frames. */
    method RxAppend(data: bytes) returns (waits: bool)
      requires Valid()
      modifies this`life, this`rx, this`rxQueuedBytes, metrics`rxQueuedBytes, serverNonce
      ensures Reaches(waits, RxFed(cfg, old(View()).(rx := old(RxView()).(d := Feed(old(RxView()).d, data)))))
      ensures !waits ==> rx.queue == old(rx.queue)
    {
      hide RxDecode, RxLoop, GoodConfig, MainView;
      AppendData(data);
      if rx.handshakeDone {
        waits := RxDecodeStep();
      } else if |rx.d.buf| - rx.d.off < NONCE_LENGTH {
        waits := false;
      } else {
        waits := true;
        TakeServerNonce();
      }
    }

    /** One turn of the queue loop. */
    method RxTakeItem() returns (waits: bool)
      requires Valid()
      requires rx.queue != [] && !life.terminated
      modifies this`life, this`rx, this`rxQueuedBytes, metrics`rxQueuedBytes, serverNonce
      ensures Reaches(waits, RxLoop(cfg, old(View())))
      ensures !waits ==> |rx.queue| < |old(rx.queue)|
    {
      hide RxAfterData, RxFed, Pop, Unqueue, GoodConfig, MainView;
      var data := ShiftQueue();
      if |data| > 0 {
        waits := RxAppend(data);
      } else {
        waits := RxItemDone();
      }
    }

    /** The queue loop, from its head to the next await. */
    method RxRun()
      requires Valid()
      modifies this`life, this`rx, this`rxQueuedBytes, metrics`rxQueuedBytes, serverNonce
      ensures View() == RxLoop(cfg, old(View()))
    {
      hide RxLoop, RxFinally, GoodConfig, MainView;
      ghost var goal := RxLoop(cfg, View());
      while rx.queue != [] && !life.terminated
        invariant RxLoop(cfg, View()) == goal
        decreases |rx.queue|
      {
        var waits := RxTakeItem();
        if waits {
          return;
        }
      }
      QueueEmpty(cfg, View());
      RxFinish();
    }

    method ProcessRxQueue()
      requires Valid()
      modifies this`life, this`rx, this`rxQueuedBytes, metrics`rxQueuedBytes, serverNonce
      ensures View() == RxStart(cfg, old(View()))
    {
      hide RxLoop, GoodConfig, MainView;
      if rx.pc != RxIdle || life.terminated {
        return;
      }
      RxRun();
    }

    /** After a segment that may have left off at the head of the queue loop. */
    method RxGoOn(waits: bool, ghost goal: State)
      requires Valid()
      requires Reaches(waits, goal)
      modifies this`life, this`rx, this`rxQueuedBytes, metrics`rxQueuedBytes, serverNonce
      ensures View() == goal
    {
      hide RxLoop, GoodConfig, MainView;
      if !waits {
        RxRun();
      }
    }

    // The receive task goes on after an await.

    method KeyDerived(ok: bool)
      requires Valid()
      modifies this`life, this`rx, this`log, this`rxQueuedBytes, metrics`rxQueuedBytes, serverNonce
      ensures View() == RxDerived(cfg, old(View()), ok)
    {
      hide RxAbort, RxReplied, GoodConfig, MainView;
      if !ok {
        RxGiveUp(RxError);
        return;
      }
      log := log.(hsLive := !life.terminated);
      life := life.(dialArmed := false);
      rx := rx.(handshakeDone := true);
      if !rx.successSent {
        rx := rx.(successSent := true, pc := RxReply);
      } else {
        SuccessSent();
      }
    }

    method SuccessSent()
      requires Valid()
      modifies this`life, this`rx, this`rxQueuedBytes, metrics`rxQueuedBytes, serverNonce
      ensures View() == RxReplied(cfg, old(View()))
    {
      hide RxDecode, RxLoop, GoodConfig, MainView;
      if life.hs == HsPending {
        life := life.(hs := HsResolved);
      }
      ghost var goal := RxDecode(cfg, View());
      var waits := RxDecodeStep();
      RxGoOn(waits, goal);
    }

    method LengthOpened()
      requires Valid()
      requires rx.d.flight.LengthFrame?
      modifies this`life, this`rx, this`rxQueuedBytes, metrics`rxQueuedBytes, serverNonce
      ensures View() == RxLengthOpened(cfg, old(View()))
    {
      hide RxAbort, RxToPayload, RxLoop, OpenLength, GoodConfig, MainView;
      var n := OpenedLength();
      if n.None? {
        DropFrame();
        RxGiveUp(DecryptError);
        return;
      }
      ExpectPayload(n.value);
      ghost var goal := RxToPayload(cfg, View());
      var waits := RxPayloadStep();
      RxGoOn(waits, goal);
    }

    method PayloadOpened()
      requires Valid()
      requires rx.d.flight.PayloadFrame?
      modifies this`life, this`rx, this`log, this`rxQueuedBytes, metrics`rxQueuedBytes, serverNonce
      ensures View() == RxPayloadOpened(cfg, old(View()))
    {
      hide RxAbort, RxPlain, GoodConfig, MainView;
      var p := cfg.cipher(ServerNonce(rx.d)).open(rx.d.flight.iv, rx.d.flight.chunk);
      if p.None? {
        DropFrame();
        RxGiveUp(DecryptError);
        return;
      }
      PlainPayload(p.value);
    }

    method PlainPayload(p: bytes)
      requires Valid()
      modifies this`life, this`rx, this`log, this`rxQueuedBytes, metrics`rxQueuedBytes, serverNonce
      ensures View() == RxPlain(cfg, old(View()), p)
    {
      hide RxDecode, RxLoop, GoodConfig, MainView;
      ExpectLength(p);
      if |p| > 0 {
        rx := rx.(recv := rx.recv + |p|, pc := RxWrite(p));
        life := life.(activeWrite := true);
        log := log.(written := log.written + p);
      } else {
        ghost var goal := RxDecode(cfg, View());
        var waits := RxDecodeStep();
        RxGoOn(waits, goal);
      }
    }

    method WriteSettled(p: bytes, ok: bool)
      requires Valid()
      modifies this`life, this`rx, this`log, this`rxQueuedBytes, metrics`rxQueuedBytes, serverNonce
      ensures View() == RxWritten(cfg, old(View()), p, ok)
    {
      hide RxAbort, RxDecode, RxLoop, ResetIdle, GoodConfig, MainView;
      life := life.(activeWrite := false);
      if !ok {
        log := log.(writeFailed := true);
        RxGiveUp(ClientWriteError);
        return;
      }
      log := log.(confirmed := log.confirmed + p);
      ResetIdleTimer();
      ghost var goal := RxDecode(cfg, View());
      var waits := RxDecodeStep();
      RxGoOn(waits, goal);
    }

    method ResumeRx(ok: bool)
      requires Valid()
      modifies this`life, this`rx, this`log, this`rxQueuedBytes, metrics`rxQueuedBytes, serverNonce
      ensures View() == StepRx(cfg, old(View()), ok)
    {
      hide RxDerived, RxReplied, RxPlain, RxWritten, RxAfterClose, RxAbort, RxToPayload, OpenLength,
           GoodConfig, MainView;
      match rx.pc
      case RxIdle =>
      case RxDerive => KeyDerived(ok);
      case RxReply => SuccessSent();
      case RxLength =>
        if rx.d.flight.LengthFrame? {
          LengthOpened();
        }
      case RxPayload =>
        if rx.d.flight.PayloadFrame? {
          PayloadOpened();
        }
      case RxWrite(p) => WriteSettled(p, ok);
      case RxClose => RxClosed();
    }

    // Transport callbacks, timers and the microtask.

    method HandleData(data: bytes, fin: bool)
      requires Valid()
      modifies this`life, this`rx, this`log, this`rxQueuedBytes, metrics`rxQueuedBytes, serverNonce
      ensures View() == OnData(cfg, old(View()), data, fin)
    {
      hide Cleanup, RxStart, Enqueue, GoodConfig, MainView;
      if life.terminated {
        return;
      }
      ResetIdleTimer();
      if rxQueuedBytes + |data| > MAX_RX_BUFFER_BYTES {
        CleanUp(RxOverflow);
        return;
      }
      QueueData(data, fin);
      ProcessRxQueue();
    }

    method HandleClose()
      requires Valid()
      modifies this`life, this`rx, this`rxQueuedBytes, metrics`rxQueuedBytes, serverNonce
      ensures View() == OnClose(cfg, old(View()))
    {
      hide Cleanup, CheckFullClose;
      rx := rx.(transportClosed := true);
      if rx.queue == [] && rx.pc == RxIdle && !life.terminated {
        if !rx.finReceived {
          CleanUp(TransportClosed);
        } else {
          CheckFullClosed();
        }
      }
    }

    method HandleError()
      requires Valid()
      modifies this`life, this`rxQueuedBytes, metrics`rxQueuedBytes
      ensures View() == Step(cfg, old(View()), TransportError)
    {
      hide Cleanup, GoodConfig, MainView;
      CleanUp(StreamError);
    }

    method IdleTimerFires()
      requires Valid()
      modifies this`life, this`rxQueuedBytes, metrics`rxQueuedBytes
      ensures View() == Step(cfg, old(View()), IdleFires)
    {
      hide Cleanup, GoodConfig, MainView;
      life := life.(idleArmed := false);
      CleanUp(IdleTimeout);
    }

    method DialTimerFires()
      requires Valid()
      modifies this`life, this`rxQueuedBytes, metrics`rxQueuedBytes
      ensures View() == Step(cfg, old(View()), DialFires)
    {
      hide Cleanup, GoodConfig, MainView;
      life := life.(dialArmed := false);
      if !rx.handshakeDone && !life.terminated {
        CleanUp(HandshakeTimeout);
      }
    }

    method MicrotaskRuns()
      requires Valid()
      modifies this`life, this`rx, this`rxQueuedBytes, metrics`rxQueuedBytes, serverNonce
      ensures View() == Step(cfg, old(View()), RxMicrotask)
    {
      hide RxStart, GoodConfig, MainView;
      rx := rx.(microtasks := if rx.microtasks > 0 then rx.microtasks - 1 else 0);
      ProcessRxQueue();
    }

    // The main task.

    method Await(pc: MainPc)
      requires Valid()
      modifies this`main
      ensures View() == Goto(old(View()), pc)
    {
      hide RxView, GoodConfig;
      main := main.(pc := pc);
    }

    method Leave()
      requires Valid()
      modifies this`life, this`main, this`rxQueuedBytes, metrics`rxQueuedBytes
      ensures View() == MainFinally(cfg, old(View()))
    {
      hide Cleanup, RxView, GoodConfig;
      CleanUp(LoopExit);
      Await(AwaitingCleanup);
    }

    method Caught()
      requires Valid()
      modifies this`life, this`main, this`rxQueuedBytes, metrics`rxQueuedBytes
      ensures View() == MainThrows(cfg, old(View()))
    {
      hide Cleanup, MainFinally, RxView, GoodConfig;
      CleanUp(TunnelError);
      Leave();
    }

    method AfterLoop()
      requires Valid()
      modifies this`life, this`main, this`rxQueuedBytes, metrics`rxQueuedBytes
      ensures View() == MainAfterLoop(cfg, old(View()))
    {
      hide MainFinally;
      if !life.terminated && !rx.finReceived {
        Await(AwaitingCompletion);
      } else {
        Leave();
      }
    }

    method LoopHead()
      requires Valid()
      modifies this`life, this`main, this`rxQueuedBytes, metrics`rxQueuedBytes
      ensures View() == MainLoop(cfg, old(View()))
    {
      hide MainAfterLoop;
      if !life.terminated {
        Await(Reading);
      } else {
        AfterLoop();
      }
    }

    method EndLoop(why: Reason)
      requires Valid()
      modifies this`life, this`main, this`rxQueuedBytes, metrics`rxQueuedBytes
      ensures View() == MainAfterLoop(cfg, Cleanup(cfg, old(View()), why))
    {
      hide Cleanup, MainAfterLoop, RxView, GoodConfig;
      CleanUp(why);
      AfterLoop();
    }

    method ClientRead(io: Io)
      requires Valid()
      modifies this`life, this`main, this`rxQueuedBytes, metrics
      ensures View() == MainRead(cfg, old(View()), io)
    {
      hide Cleanup, MainAfterLoop, MainLoop;
      match io
      case Chunk(value) =>
        if |value| > 0 {
          metrics.uploadPendingBytes := metrics.uploadPendingBytes + |value|;
          main := main.(pc := SealingData(value, 0), u := main.u.(clientRead := main.u.clientRead + value));
          ResetIdleTimer();
        } else {
          LoopHead();
        }
      case Done =>
        main := main.(readClosed := true);
        if !rx.handshakeDone {
          EndLoop(ClientAbort);
        } else {
          Await(SendingFin);
        }
      case _ => EndLoop(ClientAbort);
    }

    method FinSent()
      requires Valid()
      modifies this`life, this`main, this`rxQueuedBytes, metrics`rxQueuedBytes
      ensures View() == MainFinSent(cfg, old(View()))
    {
      hide CheckFullClose, MainAfterLoop, ResetIdle;
      CheckFullClosed();
      if !life.terminated && !rx.finReceived {
        ResetIdleTimer();
      }
      AfterLoop();
    }

    /** The nonce and the history of the sealing side move; the frame goes to the transport. */
    method Seal(piece: bytes, next: MainPc)
      requires Valid()
      modifies this`main, clientNonce
      ensures View() == SealNext(cfg, old(View()), piece, next)
    {
      var frame := SealFrameInPlace(cfg.cipher(cfg.cn), clientNonce, piece);
      main := main.(u := main.u.(wire := main.u.wire + frame[..], up := main.u.up + [piece]), pc := next);
    }

    method ChunkSealed(value: bytes, off: nat, ok: bool)
      requires Valid()
      modifies this`life, this`main, this`rxQueuedBytes, metrics`rxQueuedBytes, clientNonce
      ensures View() == MainSealed(cfg, old(View()), value, off, ok)
    {
      hide SealNext, MainThrows, Piece, RxView, GoodConfig;
      if ok {
        Seal(Piece(value, off), SendingData(value, off));
      } else {
        main := main.(upLeak := main.upLeak + if off <= |value| then |value| - off else 0);
        Caught();
      }
    }

    method ChunkSent(value: bytes, off: nat, ok: bool)
      requires Valid()
      modifies this`life, this`main, this`rxQueuedBytes, metrics
      ensures View() == MainPieceSent(cfg, old(View()), value, off, ok)
    {
      hide Cleanup, MainAfterLoop, MainLoop, Piece, RxView, GoodConfig;
      var done := if ok then |Piece(value, off)| else |value| - off;
      metrics.uploadPendingBytes := Max(0, metrics.uploadPendingBytes - done);
      if !ok {
        EndLoop(UpstreamWriteFailed);
      } else if off + CHUNK_SIZE < |value| {
        Await(SealingData(value, off + CHUNK_SIZE));
      } else {
        LoopHead();
      }
    }

    method WaitForHandshake()
      requires Valid()
      modifies this`life, this`main
      ensures View() == MainToHandshake(old(View()))
    {
      hide RxView, GoodConfig;
      life := life.(dialArmed := true);
      Await(AwaitingHandshake);
    }

    /** Nonce, header and leftover go out one after the other. */
    method Dialled()
      requires Valid()
      modifies this`life, this`main, clientNonce
      ensures View() == StepDial(cfg, old(View()))
    {
      hide SealNext, Piece;
      match main.pc
      case Connecting =>
        main := main.(u := main.u.(wire := main.u.wire + cfg.cn));
        Await(SendingNonce);
      case SendingNonce => Await(SealingHeader);
      case SealingHeader => Seal(cfg.header, SendingHeader);
      case SendingHeader =>
        if |cfg.leftover| > 0 {
          Await(SealingLeftover(0));
        } else {
          WaitForHandshake();
        }
      case SealingLeftover(off) => Seal(Piece(cfg.leftover, off), SendingLeftover(off));
      case SendingLeftover(off) =>
        if off + CHUNK_SIZE < |cfg.leftover| {
          Await(SealingLeftover(off + CHUNK_SIZE));
        } else {
          WaitForHandshake();
        }
      case _ =>
    }

    /** The relay loop goes on after an await. */
    method ResumeRelay(io: Io)
      requires Valid()
      requires main.pc == Reading || main.pc == SendingFin || main.pc.SealingData? || main.pc.SendingData?
      modifies this`life, this`main, this`rxQueuedBytes, metrics, clientNonce
      ensures View() == StepMain(cfg, old(View()), io)
    {
      hide MainRead, MainFinSent, MainSealed, MainPieceSent, ResetIdle, Goto, StepDial, RxView, GoodConfig;
      match main.pc
      case Reading => ClientRead(io);
      case SendingFin => FinSent();
      case SealingData(value, off) => ChunkSealed(value, off, io == Ok);
      case SendingData(value, off) => ChunkSent(value, off, io == Ok);
    }

    /** So does the dial, unless what it waited for failed. */
    method ResumeDial(io: Io)
      requires Valid()
      requires main.pc == Connecting || main.pc == SendingNonce || main.pc == SealingHeader ||
               main.pc == SendingHeader || main.pc.SealingLeftover? || main.pc.SendingLeftover?
      modifies this`life, this`main, this`rxQueuedBytes, metrics`rxQueuedBytes, clientNonce
      ensures View() == StepMain(cfg, old(View()), io)
    {
      hide StepDial, MainThrows, ResetIdle, Goto, RxView, GoodConfig;
      if io == Ok {
        Dialled();
      } else {
        Caught();
      }
    }

    method ReturnOutcome()
      requires Valid()
      modifies this`main
      ensures View() == MainReturn(old(View()))
    {
      var why := life.reason;
      var success := why == BothClosed ||
        (rx.handshakeDone && rx.recv > 0 && (why == IdleTimeout || why == TransportClosed));
      main := main.(pc := Returned, outcome := Some(Outcome(success, why, rx.recv, rx.handshakeDone)));
    }

    method ResumeMain(io: Io)
      requires Valid()
      modifies this`life, this`main, this`rxQueuedBytes, metrics, clientNonce
      ensures View() == StepMain(cfg, old(View()), io)
    {
      hide MainFinally, ResetIdle, MainRead, MainFinSent, MainSealed, MainPieceSent, StepDial, MainThrows, MainReturn,
           GoodConfig;
      match main.pc
      case Registering =>
        ResetIdleTimer();
        Await(Connecting);
      case AwaitingHandshake =>
        if rx.handshakeDone && !life.terminated {
          Await(Reading);
        } else {
          Leave();
        }
      case AwaitingCompletion => Leave();
      case AwaitingCleanup => ReturnOutcome();
      case Returned =>
      case Reading => ResumeRelay(io);
      case SendingFin => ResumeRelay(io);
      case SealingData(_, _) => ResumeRelay(io);
      case SendingData(_, _) => ResumeRelay(io);
      case _ => ResumeDial(io);
    }

    // Whole runs.

    /** Whatever happens next. */
    method Handle(e: Event, ghost others: nat)
      requires Valid() && Inv(cfg, View(), others) && Enabled(View(), e) && Contract(View(), e)
      modifies this, metrics, clientNonce, serverNonce
      ensures View() == Step(cfg, old(View()), e) && Inv(cfg, View(), others)
    {
      hide Inv, GoodConfig, RxView, MainView, Enabled, Contract, Cleanup, CleanToReply, CleanToCancel, RxStart;
      StepKeeps(cfg, View(), e, others);
      match e
      case Data(data, fin) => HandleData(data, fin);
      case TransportClose => HandleClose();
      case TransportError => HandleError();
      case IdleFires => IdleTimerFires();
      case DialFires => DialTimerFires();
      case RxMicrotask => MicrotaskRuns();
      case RxResume(ok) => ResumeRx(ok);
      case MainResume(io) => ResumeMain(io);
      case CleanResume => ResumeCleanup();
    }

    /** One event after the other, in any order that can happen. */
    method HandleAll(es: seq<Event>, ghost others: nat)
      requires Valid() && Inv(cfg, View(), others) && Legal(cfg, View(), es)
      modifies this, metrics, clientNonce, serverNonce
      ensures View() == Run(cfg, old(View()), es) && Inv(cfg, View(), others)
    {
      hide Inv, GoodConfig, RxView, MainView, Enabled, Contract, Step;
      var i := 0;
      while i < |es|
        invariant 0 <= i <= |es|
        invariant Inv(cfg, View(), others) && Legal(cfg, View(), es[i..])
        invariant Run(cfg, View(), es[i..]) == Run(cfg, old(View()), es)
      {
        assert es[i..][0] == es[i] && es[i..][1..] == es[i + 1..];
        Handle(es[i], others);
        i := i + 1;
      }
    }
  }

  /** A new tunnel through all of its run: whatever its server sent as a nonce and sealed
      frames, its client has been written a prefix of the payloads, and all of them once
      everything has come in and been processed; and a run that ends with `both_closed` had
      nothing missing. */
  method RunTunnel(cfg: Config, metrics: GlobalMetrics, es: seq<Event>, ghost sn: Nonce, ghost ps: seq<bytes>)
    returns (tunnel: BrookTunnel)
    requires GoodConfig(cfg) && metrics.rxQueuedBytes >= 0 && Payloads(ps)
    requires Legal(cfg, Init(cfg, metrics.rxQueuedBytes, metrics.uploadPendingBytes), es)
    modifies metrics
    ensures fresh(tunnel) && tunnel.cfg == cfg && tunnel.metrics == metrics && tunnel.Valid()
    ensures tunnel.View() == Run(cfg, old(Init(cfg, metrics.rxQueuedBytes, metrics.uploadPendingBytes)), es)
    ensures tunnel.log.received <= Stream(cfg, sn, ps) ==>
              && tunnel.log.written <= Flatten(ps) && tunnel.life.reason != DecryptError
              && (Quiet(tunnel.View()) && tunnel.log.received == Stream(cfg, sn, ps) ==>
                    tunnel.log.confirmed == Flatten(ps))
    ensures tunnel.life.reason == BothClosed ==>
              && Whole(cfg, tunnel.log.received, tunnel.rx.d.frames)
              && tunnel.log.confirmed == Flatten(tunnel.rx.d.frames) != []
  {
    hide Inv, Legal, Run, Init, Stream, Quiet, Whole, Flatten, Payloads;
    ghost var gauge, up := metrics.rxQueuedBytes, metrics.uploadPendingBytes;
    tunnel := new BrookTunnel(cfg, metrics);
    InitInv(cfg, gauge, up);
    tunnel.HandleAll(es, gauge);
    Promised(cfg, es, gauge, up, sn, ps);
  }

  lemma Promised(cfg: Config, es: seq<Event>, gauge: nat, up: int, sn: Nonce, ps: seq<bytes>)
    requires GoodConfig(cfg) && Legal(cfg, Init(cfg, gauge, up), es) && Payloads(ps)
    ensures var s := Run(cfg, Init(cfg, gauge, up), es);
            && (s.log.received <= Stream(cfg, sn, ps) ==>
                  && s.log.written <= Flatten(ps) && s.life.reason != DecryptError
                  && (Quiet(s) && s.log.received == Stream(cfg, sn, ps) ==> s.log.confirmed == Flatten(ps)))
            && (s.life.reason == BothClosed ==>
                  Whole(cfg, s.log.received, s.rx.d.frames) && s.log.confirmed == Flatten(s.rx.d.frames) != [])
  {
    hide Legal, Run, Init, Stream, Quiet, Whole, Flatten, Payloads;
    var s := Run(cfg, Init(cfg, gauge, up), es);
    if s.log.received <= Stream(cfg, sn, ps) {
      DownstreamRoundTrip(cfg, es, gauge, up, sn, ps);
    }
    if s.life.reason == BothClosed {
      BothClosedIsComplete(cfg, es, gauge, up);
    }
  }

  function Taken(d: Rx, flight: Flight, n: nat): Rx
    requires n <= Available(d)
  {
    d.(flight := flight, off := d.off + n)
  }

  lemma TakenKeepsNonce(d: Rx, e: Rx, sn: Nonce)
    requires d.off <= e.off && e == d.(flight := e.flight, off := e.off)
    ensures e.(sn := sn) == Taken(d.(sn := sn), e.flight, e.off - d.off)
  {
  }

  lemma TakenLength(d: Rx)
    requires Available(d) >= LENGTH_FRAME
    ensures var e := Taken(d, LengthFrame(d.sn, d.buf[d.off..d.off + LENGTH_FRAME]), LENGTH_FRAME);
            TakeLength(d) == e.(sn := Next(d.sn))
  {
  }

  lemma TakenPayload(d: Rx)
    requires d.expected >= 0 && Available(d) >= d.expected + TAG
    ensures var n := d.expected + TAG;
            TakePayload(d) == Taken(d, PayloadFrame(d.sn, d.buf[d.off..d.off + n]), n).(sn := Next(d.sn))
  {
  }

  lemma QueueEmpty(cfg: Config, s: State)
    requires s.rx.queue == [] || s.life.terminated
    ensures RxLoop(cfg, s) == RxFinally(cfg, s)
  {
  }
}
