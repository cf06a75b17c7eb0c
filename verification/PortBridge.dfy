/** The bridge from a message port to the reader a tunnel uses: chunks that come before
    anyone reads are queued, reads that come before any chunk wait. */
module PortBridge {
  import opened Bytes

  const MAX_READ_QUEUE_BYTES: nat := 4 * 1024 * 1024

  datatype Entry = Chunk(value: bytes) | End

  datatype Result = Data(value: bytes) | Done | Failed

  /** The answer to the read with this number. */
  datatype Answer = Answer(ticket: nat, result: Result)

  /** The bridge. History: reads issued, answers in the order given, chunks sent by the other
      side, chunks taken in. */
  datatype Bridge = Bridge(
    queue: seq<Entry>, queueBytes: nat, waiting: seq<nat>, closed: bool, aborted: bool,
    issued: nat, answers: seq<Answer>, sent: seq<bytes>, accepted: seq<bytes>)

  const START: Bridge := Bridge([], 0, [], false, false, 0, [], [], [])

  datatype BridgeEvent = ClientData(chunk: bytes) | ClientFin | ClientAbort | Read | Cancel

  function Tell(b: Bridge, result: Result): Bridge
    requires b.waiting != []
  {
    b.(waiting := b.waiting[1..], answers := b.answers + [Answer(b.waiting[0], result)])
  }

  function TellAll(b: Bridge, result: Result): Bridge
    decreases |b.waiting|
  {
    if b.waiting == [] then b else TellAll(Tell(b, result), result)
  }

  function Abort(b: Bridge): Bridge {
    TellAll(b.(closed := true, aborted := true, queue := [], queueBytes := 0), Failed)
  }

  function OnData(b: Bridge, chunk: bytes): Bridge {
    var b1 := b.(sent := b.sent + [chunk]);
    if b.closed then b1
    else if b.waiting != [] then Tell(b1, Data(chunk)).(accepted := b.accepted + [chunk])
    else if b.queueBytes + |chunk| > MAX_READ_QUEUE_BYTES then Abort(b1)
    else b1.(queue := b.queue + [Chunk(chunk)], queueBytes := b.queueBytes + |chunk|, accepted := b.accepted + [chunk])
  }

  function OnFin(b: Bridge): Bridge {
    if b.closed then b
    else if b.waiting != [] then TellAll(b.(closed := true), Done)
    else b.(closed := true, queue := b.queue + [End])
  }

  function DoRead(b: Bridge): Bridge {
    var t := b.issued;
    var b1 := b.(issued := t + 1);
    if b.aborted then b1.(answers := b.answers + [Answer(t, Failed)])
    else if b.queue != [] then
      match b.queue[0]
      case Chunk(v) =>
        b1.(queue := b.queue[1..], queueBytes := Max(0, b.queueBytes - |v|),
            answers := b.answers + [Answer(t, Data(v))])
      case End => b1.(queue := b.queue[1..], answers := b.answers + [Answer(t, Done)])
    else if b.closed then b1.(answers := b.answers + [Answer(t, Done)])
    else b1.(waiting := b.waiting + [t])
  }

  function DoCancel(b: Bridge): Bridge {
    TellAll(b.(closed := true), Done)
  }

  function BridgeStep(b: Bridge, e: BridgeEvent): Bridge {
    match e
    case ClientData(chunk) => OnData(b, chunk)
    case ClientFin => OnFin(b)
    case ClientAbort => Abort(b)
    case Read => DoRead(b)
    case Cancel => DoCancel(b)
  }

  // Invariant.

  function Queued(queue: seq<Entry>): seq<bytes> {
    if queue == [] then [] else (if queue[0].Chunk? then [queue[0].value] else []) + Queued(queue[1..])
  }

  function Received(answers: seq<Answer>): seq<bytes> {
    if answers == [] then []
    else
      var last := answers[|answers| - 1].result;
      Received(answers[..|answers| - 1]) + if last.Data? then [last.value] else []
  }

  /** Reads are answered in the order they were made. */
  predicate Tickets(b: Bridge) {
    && b.issued == |b.answers| + |b.waiting|
    && (forall i :: 0 <= i < |b.answers| ==> b.answers[i].ticket == i)
    && (forall i :: 0 <= i < |b.waiting| ==> b.waiting[i] == |b.answers| + i)
  }

  /** Answers without data come last, and only when nothing is left to give. */
  predicate DataFirst(answers: seq<Answer>) {
    forall i, j :: 0 <= i < j < |answers| && answers[j].result.Data? ==> answers[i].result.Data?
  }

  predicate EndLast(queue: seq<Entry>) {
    forall i :: 0 <= i < |queue| && queue[i].End? ==> i == |queue| - 1
  }

  predicate BridgeInv(b: Bridge) {
    && Tickets(b)
    && (b.queue != [] ==> b.waiting == [])
    && (b.closed ==> b.waiting == [])
    && (b.aborted ==> b.closed && b.queue == [])
    && b.queueBytes == |Flatten(Queued(b.queue))| <= MAX_READ_QUEUE_BYTES
    && EndLast(b.queue) && (b.queue != [] && b.queue[|b.queue| - 1].End? ==> b.closed)
    && DataFirst(b.answers)
    && (b.answers != [] && !b.answers[|b.answers| - 1].result.Data? ==> b.closed && b.queue == [])
    && (if b.aborted then Received(b.answers) <= b.accepted else Received(b.answers) + Queued(b.queue) == b.accepted)
    && b.accepted <= b.sent && (!b.closed ==> b.accepted == b.sent)
  }

  lemma ReceivedSnoc(answers: seq<Answer>, a: Answer)
    ensures Received(answers + [a]) == Received(answers) + if a.result.Data? then [a.result.value] else []
  {
    assert (answers + [a])[..|answers|] == answers;
  }

  lemma {:induction false} QueuedSnoc(queue: seq<Entry>, e: Entry)
    ensures Queued(queue + [e]) == Queued(queue) + if e.Chunk? then [e.value] else []
  {
    if queue == [] {
      assert queue + [e] == [e] && [e][1..] == [];
    } else {
      var all, last := queue + [e], if e.Chunk? then [e.value] else [];
      assert all[0] == queue[0] && all[1..] == queue[1..] + [e];
      QueuedSnoc(queue[1..], e);
      var first := if queue[0].Chunk? then [queue[0].value] else [];
      assert Queued(all) == first + (Queued(queue[1..]) + last);
      assert Queued(queue) == first + Queued(queue[1..]);
    }
  }

  /** Settling all waiting reads without data. */
  lemma {:induction false} TellAllShape(b: Bridge, result: Result)
    requires !result.Data? && Tickets(b) && DataFirst(b.answers)
    ensures var z := TellAll(b, result);
            && Tickets(z) && z.waiting == [] && DataFirst(z.answers)
            && Received(z.answers) == Received(b.answers)
            && z == b.(waiting := [], answers := z.answers)
            && (b.waiting == [] ==> z == b)
    decreases |b.waiting|
  {
    if b.waiting != [] {
      ReceivedSnoc(b.answers, Answer(b.waiting[0], result));
      TellAllShape(Tell(b, result), result);
    }
  }

  lemma AbortKeeps(b: Bridge)
    requires BridgeInv(b)
    ensures BridgeInv(Abort(b))
  {
    hide Queued, Received, TellAll, Flatten;
    TellAllShape(b.(closed := true, aborted := true, queue := [], queueBytes := 0), Failed);
    EmptyQueue();
    assert Received(b.answers) <= b.accepted;
  }

  lemma EmptyQueue()
    ensures Queued([]) == [] && Flatten([]) == []
  {
  }

  lemma DataKeeps(b: Bridge, chunk: bytes)
    requires BridgeInv(b)
    ensures BridgeInv(OnData(b, chunk))
  {
    hide Queued, Received, Abort, Flatten;
    EmptyQueue();
    if !b.closed {
      if b.waiting != [] {
        ReceivedSnoc(b.answers, Answer(b.waiting[0], Data(chunk)));
      } else if b.queueBytes + |chunk| > MAX_READ_QUEUE_BYTES {
        AbortKeeps(b);
        AbortAfterSend(b, chunk);
      } else {
        QueuedSnoc(b.queue, Chunk(chunk));
        FlattenSnoc(Queued(b.queue), chunk);
        assert Received(b.answers) + (Queued(b.queue) + [chunk]) == b.accepted + [chunk];
      }
    }
  }

  lemma AbortAfterSend(b: Bridge, chunk: bytes)
    requires BridgeInv(b)
    ensures BridgeInv(Abort(b.(sent := b.sent + [chunk])))
  {
    hide Queued, Received, TellAll, Flatten;
    TellAllShape(b.(sent := b.sent + [chunk], closed := true, aborted := true, queue := [], queueBytes := 0), Failed);
    EmptyQueue();
    assert Received(b.answers) <= b.accepted;
  }

  lemma FinKeeps(b: Bridge)
    requires BridgeInv(b)
    ensures BridgeInv(OnFin(b))
  {
    hide Queued, Received, TellAll, Flatten;
    TellAllShape(b.(closed := true), Done);
    QueuedSnoc(b.queue, End);
    assert Queued(b.queue) + [] == Queued(b.queue);
  }

  lemma ReadKeeps(b: Bridge)
    requires BridgeInv(b)
    ensures BridgeInv(DoRead(b))
  {
    hide Received, Flatten;
    var t := b.issued;
    ReceivedSnoc(b.answers, Answer(t, Failed));
    ReceivedSnoc(b.answers, Answer(t, Done));
    if !b.aborted && b.queue != [] && b.queue[0].Chunk? {
      ReadData(b);
    }
  }

  /** What taking the first chunk leaves in the queue. */
  lemma QueuedHead(queue: seq<Entry>, given: seq<bytes>)
    requires queue != [] && queue[0].Chunk?
    ensures |Flatten(Queued(queue))| == |queue[0].value| + |Flatten(Queued(queue[1..]))|
    ensures given + Queued(queue) == given + [queue[0].value] + Queued(queue[1..])
    ensures EndLast(queue) ==> EndLast(queue[1..])
  {
    assert Queued(queue) == [queue[0].value] + Queued(queue[1..]);
    assert Queued(queue)[1..] == Queued(queue[1..]);
  }

  lemma AnswersGrow(b: Bridge, v: bytes)
    requires Tickets(b) && DataFirst(b.answers) && b.waiting == []
    requires b.answers != [] ==> b.answers[|b.answers| - 1].result.Data?
    ensures var r := b.(issued := b.issued + 1, answers := b.answers + [Answer(b.issued, Data(v))]);
            Tickets(r) && DataFirst(r.answers) && r.answers[|r.answers| - 1].result.Data?
  {
  }

  lemma ReadData(b: Bridge)
    requires BridgeInv(b) && !b.aborted && b.queue != [] && b.queue[0].Chunk?
    ensures BridgeInv(DoRead(b))
  {
    hide Received, Queued, Flatten, Tickets, DataFirst, EndLast;
    var v := b.queue[0].value;
    ReceivedSnoc(b.answers, Answer(b.issued, Data(v)));
    QueuedHead(b.queue, Received(b.answers));
    AnswersGrow(b, v);
    TicketsOnly(b.(issued := b.issued + 1, answers := b.answers + [Answer(b.issued, Data(v))]), DoRead(b));
  }

  lemma TicketsOnly(b: Bridge, r: Bridge)
    requires Tickets(b) && r.issued == b.issued && r.answers == b.answers && r.waiting == b.waiting
    ensures Tickets(r)
  {
  }

  lemma CancelKeeps(b: Bridge)
    requires BridgeInv(b)
    ensures BridgeInv(DoCancel(b))
  {
    hide Queued, Received, TellAll, Flatten;
    TellAllShape(b.(closed := true), Done);
  }

  /** Every message, read and cancellation keeps the invariant. */
  lemma BridgeKeeps(b: Bridge, e: BridgeEvent)
    requires BridgeInv(b)
    ensures BridgeInv(BridgeStep(b, e))
  {
    hide BridgeInv;
    match e
    case ClientData(chunk) => DataKeeps(b, chunk);
    case ClientFin => FinKeeps(b);
    case ClientAbort => AbortKeeps(b);
    case Read => ReadKeeps(b);
    case Cancel => CancelKeeps(b);
  }

  // Runs.

  function BridgeRun(b: Bridge, es: seq<BridgeEvent>): Bridge
    decreases |es|
  {
    if es == [] then b else BridgeRun(BridgeStep(b, es[0]), es[1..])
  }

  lemma {:induction false} BridgeRunKeeps(b: Bridge, es: seq<BridgeEvent>)
    requires BridgeInv(b)
    ensures BridgeInv(BridgeRun(b, es))
    decreases |es|
  {
    hide BridgeInv, BridgeStep;
    if es != [] {
      BridgeKeeps(b, es[0]);
      BridgeRunKeeps(BridgeStep(b, es[0]), es[1..]);
    }
  }

  lemma {:induction false} ReceivedAt(answers: seq<Answer>, k: nat)
    requires DataFirst(answers) && k < |answers| && answers[k].result.Data?
    ensures k < |Received(answers)| && Received(answers)[k] == answers[k].result.value
    ensures answers[|answers| - 1].result.Data? ==> |Received(answers)| == |answers|
    decreases |answers|
  {
    var last, before := answers[|answers| - 1], answers[..|answers| - 1];
    assert answers == before + [last];
    ReceivedSnoc(before, last);
    if k < |answers| - 1 {
      assert DataFirst(before) && before[k] == answers[k];
      ReceivedAt(before, k);
      if last.result.Data? {
        ReceivedAt(before, |before| - 1);
      }
    } else if before != [] {
      assert before[|before| - 1].result.Data?;
      ReceivedAt(before, |before| - 1);
    }
  }

  /** Over every run: nobody waits while something is queued; reads are answered in order;
      a read that gets data gets the chunk of its own number, so that the data read are a
      prefix of what was sent even after an abort; and queued bytes are counted exactly and
      stay within 4 MiB. */
  lemma BridgeFifo(es: seq<BridgeEvent>, k: nat)
    ensures var b := BridgeRun(START, es);
            && (b.queue == [] || b.waiting == [])
            && b.issued == |b.answers| + |b.waiting|
            && (k < |b.answers| ==> b.answers[k].ticket == k)
            && (k < |b.answers| && b.answers[k].result.Data? ==>
                  k < |b.sent| && b.answers[k].result == Data(b.sent[k]))
            && (!b.closed ==> Received(b.answers) + Queued(b.queue) == b.sent)
            && b.queueBytes == |Flatten(Queued(b.queue))| <= 4 * 1024 * 1024
  {
    hide BridgeRun, Queued, Received, Flatten;
    EmptyQueue();
    assert Received([]) == [] by { ReceivedNone(); }
    assert BridgeInv(START);
    BridgeRunKeeps(START, es);
    var b := BridgeRun(START, es);
    if k < |b.answers| && b.answers[k].result.Data? {
      ReceivedAt(b.answers, k);
      assert Received(b.answers) <= b.accepted <= b.sent;
    }
  }

  lemma ReceivedNone()
    ensures Received([]) == []
  {
  }

  /** The queue is given up exactly on an abort by the other side, or when a chunk would take
      it over the limit with nobody reading. */
  lemma AbortExact(b: Bridge, e: BridgeEvent)
    requires BridgeInv(b) && !b.aborted
    ensures BridgeStep(b, e).aborted <==>
            e == ClientAbort ||
            (e.ClientData? && !b.closed && b.waiting == [] && b.queueBytes + |e.chunk| > 4 * 1024 * 1024)
  {
    hide TellAll, Queued, Received, Flatten;
    TellAllShape(b.(closed := true), Done);
    TellAllShape(b.(closed := true, aborted := true, queue := [], queueBytes := 0), Failed);
    if e.ClientData? {
      TellAllShape(b.(sent := b.sent + [e.chunk], closed := true, aborted := true, queue := [], queueBytes := 0),
                   Failed);
    }
  }

  // What each read is answered.

  lemma {:induction false} TellAllAnswers(b: Bridge, result: Result)
    ensures var z := TellAll(b, result);
            && |z.answers| == |b.answers| + |b.waiting| && b.answers <= z.answers
            && (forall i :: 0 <= i < |b.waiting| ==> z.answers[|b.answers| + i] == Answer(b.waiting[i], result))
    decreases |b.waiting|
  {
    if b.waiting != [] {
      var c := Tell(b, result);
      TellAllAnswers(c, result);
      var z := TellAll(b, result);
      forall i | 0 <= i < |b.waiting|
        ensures z.answers[|b.answers| + i] == Answer(b.waiting[i], result)
      {
        if i == 0 {
          assert c.answers[|b.answers|] == Answer(b.waiting[0], result);
        } else {
          assert c.waiting[i - 1] == b.waiting[i];
        }
      }
    }
  }

  /** A read is answered with the chunk of its number; Done, only once the stream is closed,
      and unless the bridge was aborted only behind the last chunk; Failed, only after an abort. */
  predicate AnswerOk(b: Bridge, k: nat, result: Result) {
    match result
    case Data(v) => k < |b.accepted| && v == b.accepted[k]
    case Done => b.closed && (b.aborted || k >= |b.accepted|)
    case Failed => b.aborted
  }

  predicate AnswersOk(b: Bridge) {
    forall k :: 0 <= k < |b.answers| ==> AnswerOk(b, k, b.answers[k].result)
  }

  /** Chunks given so far, as long as nobody has been told anything else. */
  lemma {:induction false} ReceivedCount(answers: seq<Answer>)
    requires DataFirst(answers)
    ensures |Received(answers)| <= |answers|
    ensures answers == [] || answers[|answers| - 1].result.Data? ==> |Received(answers)| == |answers|
    decreases |answers|
  {
    if answers != [] {
      hide DataFirst, Received;
      var last, before := answers[|answers| - 1], answers[..|answers| - 1];
      assert answers == before + [last];
      ReceivedSnoc(before, last);
      DataBefore(answers);
      ReceivedCount(before);
    } else {
      ReceivedNone();
    }
  }

  lemma DataBefore(answers: seq<Answer>)
    requires DataFirst(answers) && answers != []
    ensures var last, before := answers[|answers| - 1], answers[..|answers| - 1];
            DataFirst(before) && (last.result.Data? && before != [] ==> before[|before| - 1].result.Data?)
  {
    var before := answers[..|answers| - 1];
    assert forall i :: 0 <= i < |before| ==> before[i] == answers[i];
  }

  /** As long as somebody waits, or something is queued, all answers were data, and the next
      read gets the next chunk. */
  lemma NextRead(b: Bridge)
    requires BridgeInv(b) && !b.aborted && (b.waiting != [] || b.queue != [] || !b.closed)
    ensures |Received(b.answers)| == |b.answers|
    ensures b.queue == [] ==> |b.accepted| == |b.answers|
    ensures b.queue != [] && b.queue[0].Chunk? ==>
              |b.answers| < |b.accepted| && b.accepted[|b.answers|] == b.queue[0].value
    ensures b.queue != [] && b.queue[0].End? ==> |b.accepted| == |b.answers|
  {
    hide Received, Flatten;
    ReceivedCount(b.answers);
    if b.queue != [] {
      assert Queued(b.queue)[0..] == Queued(b.queue);
      if b.queue[0].End? {
        assert b.queue == [b.queue[0]] && Queued(b.queue[1..]) == [];
      }
    }
  }

  /** Behind the end of a stream that was not aborted nothing is left to give. */
  lemma BehindTheEnd(b: Bridge)
    requires BridgeInv(b) && !b.aborted && b.queue == []
    ensures |b.accepted| <= |b.answers|
  {
    hide Received, Flatten;
    ReceivedCount(b.answers);
    EmptyQueue();
    assert Received(b.answers) + [] == Received(b.answers);
  }

  lemma TellAllOk(b: Bridge, c: Bridge, result: Result)
    requires BridgeInv(b) && AnswersOk(b)
    requires c.answers == b.answers && c.waiting == b.waiting && b.accepted == c.accepted && c.closed
    requires (b.aborted ==> c.aborted) && (b.closed ==> c.closed)
    requires result == Done || (result == Failed && c.aborted)
    ensures AnswersOk(TellAll(c, result))
  {
    hide Received, Flatten, Queued, BridgeInv;
    var z := TellAll(c, result);
    TellAllAnswers(c, result);
    TellAllFrame(c, result);
    if b.waiting != [] && !b.aborted {
      WaitersAreBehind(b);
    }
    forall k | 0 <= k < |z.answers|
      ensures AnswerOk(z, k, z.answers[k].result)
    {
      if k < |b.answers| {
        assert z.answers[k] == b.answers[k];
      } else {
        assert z.answers[k] == Answer(c.waiting[k - |b.answers|], result);
        NoWaitersAborted(b);
      }
    }
  }

  lemma WaitersAreBehind(b: Bridge)
    requires BridgeInv(b) && !b.aborted && b.waiting != []
    ensures |b.accepted| == |b.answers|
  {
    NextRead(b);
  }

  lemma NoWaitersAborted(b: Bridge)
    requires BridgeInv(b)
    ensures b.aborted ==> b.waiting == []
  {
  }

  lemma {:induction false} TellAllFrame(b: Bridge, result: Result)
    ensures var z := TellAll(b, result);
            z.accepted == b.accepted && z.closed == b.closed && z.aborted == b.aborted && z.sent == b.sent
    decreases |b.waiting|
  {
    if b.waiting != [] {
      TellAllFrame(Tell(b, result), result);
    }
  }

  lemma AnswersKeep(b: Bridge, e: BridgeEvent)
    requires BridgeInv(b) && AnswersOk(b)
    ensures AnswersOk(BridgeStep(b, e))
  {
    hide Received, Flatten, Queued, TellAll, BridgeInv;
    match e
    case ClientData(chunk) => DataAnswers(b, chunk);
    case ClientFin => TellAllOk(b, b.(closed := true), Done);
    case ClientAbort => TellAllOk(b, b.(closed := true, aborted := true, queue := [], queueBytes := 0), Failed);
    case Read => ReadAnswers(b);
    case Cancel => TellAllOk(b, b.(closed := true), Done);
  }

  lemma DataAnswers(b: Bridge, chunk: bytes)
    requires BridgeInv(b) && AnswersOk(b)
    ensures AnswersOk(OnData(b, chunk))
  {
    hide Received, Flatten, Queued, TellAll, BridgeInv;
    var b1 := b.(sent := b.sent + [chunk]);
    if !b.closed {
      NotDoneYet(b);
      if b.waiting != [] {
        WaitersAreBehind(b);
      } else if b.queueBytes + |chunk| > MAX_READ_QUEUE_BYTES {
        TellAllOk(b, b1.(closed := true, aborted := true, queue := [], queueBytes := 0), Failed);
      }
    }
  }

  lemma NotDoneYet(b: Bridge)
    requires BridgeInv(b) && !b.closed
    ensures !b.aborted
  {
  }

  lemma ReadAnswers(b: Bridge)
    requires BridgeInv(b) && AnswersOk(b)
    ensures AnswersOk(DoRead(b))
  {
    hide Received, Flatten, Queued, BridgeInv;
    if !b.aborted {
      if b.queue != [] {
        NextRead(b);
        EndMeansClosed(b);
      } else if b.closed {
        BehindTheEnd(b);
      }
    }
  }

  lemma EndMeansClosed(b: Bridge)
    requires BridgeInv(b) && b.queue != []
    ensures b.queue[0].End? ==> b.closed
  {
  }

  lemma {:induction false} RunAnswersKeep(b: Bridge, es: seq<BridgeEvent>)
    requires BridgeInv(b) && AnswersOk(b)
    ensures AnswersOk(BridgeRun(b, es))
    decreases |es|
  {
    hide BridgeInv, BridgeStep, AnswersOk;
    if es != [] {
      BridgeKeeps(b, es[0]);
      AnswersKeep(b, es[0]);
      RunAnswersKeep(BridgeStep(b, es[0]), es[1..]);
    }
  }

  /** Over every run: no read fails unless the bridge was aborted; and on a bridge that was not,
      read number k is answered with chunk number k, or, behind the last one taken in, with
      the end, and with that only once the stream is closed. */
  lemma ReadsAnswered(es: seq<BridgeEvent>, k: nat)
    ensures var b := BridgeRun(START, es);
            k < |b.answers| ==>
              && (b.answers[k].result == Failed ==> b.aborted)
              && (b.answers[k].result == Done ==> b.closed)
              && (!b.aborted ==>
                    b.answers[k].result == if k < |b.accepted| then Data(b.accepted[k]) else Done)
  {
    hide BridgeRun, Queued, Received, Flatten;
    EmptyQueue();
    ReceivedNone();
    assert BridgeInv(START);
    RunAnswersKeep(START, es);
    var b := BridgeRun(START, es);
    assert k < |b.answers| ==> AnswerOk(b, k, b.answers[k].result);
  }

  /** What becomes of a read that waits: data goes to the first one; the end and a cancellation
      end them all; an abort rejects them all; another read lets them wait on. */
  lemma WaitersAnswered(b: Bridge, e: BridgeEvent, i: nat)
    requires BridgeInv(b) && i < |b.waiting|
    ensures var z, n := BridgeStep(b, e), |b.answers| + i;
            if e == Read || (e.ClientData? && i > 0) then n >= |z.answers| && b.waiting[i] in z.waiting
            else
              && n < |z.answers| && z.answers[n].ticket == b.waiting[i]
              && z.answers[n].result ==
                 (match e case ClientData(chunk) => Data(chunk) case ClientAbort => Failed case _ => Done)
  {
    hide Received, Flatten, Queued, TellAll;
    TellAllAnswers(b.(closed := true), Done);
    TellAllAnswers(b.(closed := true, aborted := true, queue := [], queueBytes := 0), Failed);
    match e
    case ClientData(chunk) => assert i > 0 ==> b.waiting[1..][i - 1] == b.waiting[i];
    case Read => assert (b.waiting + [b.issued])[i] == b.waiting[i];
    case _ =>
  }

  /** What is taken in: everything sent until the stream is closed, and nothing after. */
  lemma TakenUntilClosed(b: Bridge, e: BridgeEvent)
    requires BridgeInv(b)
    ensures var z := BridgeStep(b, e);
            && (b.closed ==> z.closed && z.accepted == b.accepted)
            && (!z.closed ==> z.accepted == z.sent)
            && (e == ClientFin || e == Cancel || e == ClientAbort ==> z.closed && z.accepted == b.accepted)
            && (b.aborted ==> z.aborted)
  {
    hide Received, Flatten, Queued, TellAll, BridgeInv;
    BridgeKeeps(b, e);
    TellAllFrame(b.(closed := true), Done);
    TellAllFrame(b.(closed := true, aborted := true, queue := [], queueBytes := 0), Failed);
    TakenInvs(b);
    TakenInvs(BridgeStep(b, e));
    if e.ClientData? {
      TellAllFrame(b.(sent := b.sent + [e.chunk], closed := true, aborted := true, queue := [], queueBytes := 0),
                   Failed);
    }
  }

  lemma TakenInvs(b: Bridge)
    requires BridgeInv(b)
    ensures (!b.closed ==> b.accepted == b.sent) && (b.closed ==> b.waiting == []) && (b.aborted ==> b.closed)
  {
  }

  // The bridge as the closure it is.

  class PortStreamBridge {
    var readQueue: seq<Entry>
    var readQueueBytes: nat
    var pendingReadResolvers: seq<nat>
    var isClosed: bool
    var abortError: bool
    var issued: nat
    var answers: seq<Answer>
    ghost var sent: seq<bytes>
    ghost var accepted: seq<bytes>

    ghost function View(): Bridge
      reads this
    {
      Bridge(readQueue, readQueueBytes, pendingReadResolvers, isClosed, abortError, issued, answers, sent, accepted)
    }

    constructor ()
      ensures View() == START
    {
      readQueue, readQueueBytes, pendingReadResolvers, isClosed, abortError := [], 0, [], false, false;
      issued, answers, sent, accepted := 0, [], [], [];
    }

    method Resolve(result: Result)
      requires pendingReadResolvers != []
      modifies this`pendingReadResolvers, this`answers
      ensures View() == Tell(old(View()), result)
    {
      var resolver := pendingReadResolvers[0];
      pendingReadResolvers := pendingReadResolvers[1..];
      answers := answers + [Answer(resolver, result)];
    }

    method ResolveAll(result: Result)
      modifies this`pendingReadResolvers, this`answers
      ensures View() == TellAll(old(View()), result)
    {
      while pendingReadResolvers != []
        invariant TellAll(View(), result) == TellAll(old(View()), result)
        decreases |pendingReadResolvers|
      {
        Resolve(result);
      }
    }

    method AbortInbound()
      modifies this
      ensures View() == Abort(old(View()))
    {
      isClosed, abortError, readQueue, readQueueBytes := true, true, [], 0;
      ResolveAll(Failed);
    }

    method OnClientData(chunk: bytes)
      modifies this
      ensures View() == OnData(old(View()), chunk)
    {
      sent := sent + [chunk];
      if isClosed {
        return;
      }
      if |pendingReadResolvers| > 0 {
        Resolve(Data(chunk));
        accepted := accepted + [chunk];
      } else if readQueueBytes + |chunk| > MAX_READ_QUEUE_BYTES {
        AbortInbound();
      } else {
        readQueue := readQueue + [Chunk(chunk)];
        readQueueBytes := readQueueBytes + |chunk|;
        accepted := accepted + [chunk];
      }
    }

    method OnClientFin()
      modifies this
      ensures View() == OnFin(old(View()))
    {
      if isClosed {
        return;
      }
      isClosed := true;
      if |pendingReadResolvers| > 0 {
        ResolveAll(Done);
      } else {
        readQueue := readQueue + [End];
      }
    }

    method OnClientAbort()
      modifies this
      ensures View() == Abort(old(View()))
    {
      AbortInbound();
    }

    method ReadNext()
      modifies this
      ensures View() == DoRead(old(View()))
    {
      var ticket := issued;
      issued := issued + 1;
      if abortError {
        answers := answers + [Answer(ticket, Failed)];
      } else if |readQueue| > 0 {
        var item := readQueue[0];
        readQueue := readQueue[1..];
        if item.Chunk? {
          readQueueBytes := if readQueueBytes >= |item.value| then readQueueBytes - |item.value| else 0;
          answers := answers + [Answer(ticket, Data(item.value))];
        } else {
          answers := answers + [Answer(ticket, Done)];
        }
      } else if isClosed {
        answers := answers + [Answer(ticket, Done)];
      } else {
        pendingReadResolvers := pendingReadResolvers + [ticket];
      }
    }

    method CancelReads()
      modifies this
      ensures View() == DoCancel(old(View()))
    {
      isClosed := true;
      ResolveAll(Done);
    }
  }
}
