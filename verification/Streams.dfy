/**
 Record streams over a delivery channel: SendStream on one side, and on the other ReceiveStream
 with the goroutine that feeds it through a one-place channel.

 The sequential code of each loop is given as a method.  The concurrent whole is a step system
 down to single bytes on the transport; every run of it, whatever the interleaving, the chunk
 sizes, the failures and the cancellations, is covered by the theorems at the end.
 */
module Streams {
  import opened Prelude
  import opened Framing

  // ----- errors and their classification

  datatype Kind = StreamError | ChannelClosed | TooLarge

  /** An error value with the chain errors.Is and errors.As walk along. */
  datatype Err = Io(e: IOError) | Cancelled | Delivery(kind: Kind, cause: Option<Err>)

  /** errors.Is(err, io.EOF) or errors.Is(err, io.ErrUnexpectedEOF). */
  predicate EndsInEof(err: Err)
  {
    match err
    case Io(e) => e == EOF || e == UnexpectedEOF
    case Cancelled => false
    case Delivery(_, cause) => cause.Some? && EndsInEof(cause.value)
  }

  predicate IsStreamClosed(err: Err)
  {
    EndsInEof(err) || (err.Delivery? && err.kind == ChannelClosed)
  }

  /** The error adapter.Receive returns when ReadFrame fails. */
  function ReceiveError(e: IOError): Err
  {
    Delivery(StreamError, Some(if e == FrameTooLarge then Delivery(TooLarge, None) else Io(e)))
  }

  /** The error adapter.Send returns when WriteFrame fails. */
  function SendError(e: IOError): Err
  {
    Delivery(StreamError, Some(if e == FrameTooLarge then Delivery(TooLarge, None) else Delivery(StreamError, Some(Io(e)))))
  }

  /** What errors.As finds in a chain. */
  predicate Mentions(err: Err, kind: Kind)
  {
    err.Delivery? && (err.kind == kind || (err.cause.Some? && Mentions(err.cause.value, kind)))
  }

  /** Both errors are of the stream on the outside; inside they say that a frame was too large exactly
      when it was, and keep any other cause. */
  lemma WrappedErrors(e: IOError)
    ensures ReceiveError(e).kind == StreamError && SendError(e).kind == StreamError
    ensures Mentions(ReceiveError(e), TooLarge) <==> e == FrameTooLarge
    ensures Mentions(SendError(e), TooLarge) <==> e == FrameTooLarge
    ensures !Mentions(ReceiveError(e), ChannelClosed) && !Mentions(SendError(e), ChannelClosed)
    ensures e != FrameTooLarge ==> ReceiveError(e) == Delivery(StreamError, Some(Io(e)))
    ensures e != FrameTooLarge ==> SendError(e) == Delivery(StreamError, Some(Delivery(StreamError, Some(Io(e)))))
  {
  }

  /** Wrapped or not, exactly the two ends of a byte stream count as closed. */
  lemma ClosingErrors(e: IOError)
    ensures IsStreamClosed(ReceiveError(e)) <==> e == EOF || e == UnexpectedEOF
    ensures IsStreamClosed(SendError(e)) <==> e == EOF || e == UnexpectedEOF
    ensures !IsStreamClosed(Cancelled)
  {
    assert EndsInEof(Io(e)) <==> e == EOF || e == UnexpectedEOF;
  }

  /** How a stream loop reports the error that ended it. */
  function LoopResult(err: Err): Option<Err>
  {
    if IsStreamClosed(err) then None else Some(err)
  }

  // ----- the two loops on their own

  function Fitting(rs: seq<seq<byte>>): seq<Record>
  {
    if rs == [] then []
    else if |rs[0]| <= MAX_FRAME_SIZE then [rs[0]] + Fitting(rs[1..])
    else Fitting(rs[1..])
  }

  /** The bytes SendStream has to put on the transport for the first n records. */
  function Wire(rs: seq<seq<byte>>, n: nat): seq<byte>
    requires n <= |rs|
  {
    if n == 0 then []
    else Wire(rs, n - 1) + if |rs[n - 1]| <= MAX_FRAME_SIZE then Encode(rs[n - 1]) else []
  }

  /** None of the first n records is oversized. */
  predicate AllFit(rs: seq<seq<byte>>, n: nat)
    requires n <= |rs|
  {
    n == 0 || (|rs[n - 1]| <= MAX_FRAME_SIZE && AllFit(rs, n - 1))
  }

  lemma {:induction false} FittingNext(rs: seq<seq<byte>>, r: seq<byte>)
    ensures Fitting(rs + [r]) == Fitting(rs) + if |r| <= MAX_FRAME_SIZE then [r] else []
  {
    if rs == [] {
      assert rs + [r] == [r];
    } else {
      assert (rs + [r])[1..] == rs[1..] + [r];
      FittingNext(rs[1..], r);
    }
  }

  lemma {:induction false} WireIsEncodeAll(rs: seq<seq<byte>>, n: nat)
    requires n <= |rs|
    ensures Wire(rs, n) == EncodeAll(Fitting(rs[..n]))
  {
    if n > 0 {
      WireIsEncodeAll(rs, n - 1);
      var r := rs[n - 1];
      assert rs[..n] == rs[..n - 1] + [r];
      FittingNext(rs[..n - 1], r);
      if |r| <= MAX_FRAME_SIZE {
        EncodeAllNext(Fitting(rs[..n - 1]), r);
      } else {
        assert Fitting(rs[..n]) == Fitting(rs[..n - 1]);
      }
    }
  }

  lemma EncodeAllNext(rs: seq<Record>, r: Record)
    ensures EncodeAll(rs + [r]) == EncodeAll(rs) + Encode(r)
  {
    var one: seq<Record> := [r];
    assert one[1..] == [];
    assert EncodeAll(one) == Encode(r);
    EncodeAllAppend(rs, one);
  }

  /** What the next record adds to the wire, after what was there before. */
  lemma WireNext(before: seq<byte>, rs: seq<seq<byte>>, n: nat)
    requires n < |rs|
    ensures before <= before + Wire(rs, n)
    ensures |rs[n]| > MAX_FRAME_SIZE ==> before + Wire(rs, n + 1) == before + Wire(rs, n)
    ensures |rs[n]| <= MAX_FRAME_SIZE ==> before + Wire(rs, n + 1) == before + Wire(rs, n) + Encode(rs[n])
  {
    var w := Wire(rs, n);
    if |rs[n]| <= MAX_FRAME_SIZE {
      var e := Encode(rs[n]);
      assert Wire(rs, n + 1) == w + e;
      assert before + (w + e) == (before + w) + e;
    } else {
      assert Wire(rs, n + 1) == w + [] == w;
    }
  }

  // ----- the adapter's entry for the channel

  /** What Send and Receive return for a channel that Disconnect has removed. */
  const GONE: Err := Delivery(ChannelClosed, None)

  /** The entry of a channel in the adapter's map.  Another goroutine may disconnect the channel
      between any two look-ups, for good: `lasts` is how many more look-ups find it, None when all. */
  class Registration {
    var lasts: Option<nat>

    constructor (lasts: Option<nat>)
      ensures this.lasts == lasts
    {
      this.lasts := lasts;
    }

    method GetChannel() returns (found: bool)
      modifies this
      ensures found == (old(lasts) != Some(0)) && lasts == Later(old(lasts), 1)
      ensures old(lasts) == None ==> lasts == None
      ensures old(lasts).Some? ==> lasts == Some(if found then old(lasts).value - 1 else 0)
    {
      found := lasts != Some(0);
      lasts := Later(lasts, 1);
    }
  }

  /** What is left after n look-ups. */
  function Later(lasts: Option<nat>, n: nat): Option<nat>
  {
    match lasts
    case None => None
    case Some(k) => Some(if k >= n then k - n else 0)
  }

  /** adapter.Send.  Its error counts as a closed stream exactly when the channel is gone. */
  method Send(ch: Registration, fw: FrameWriter, data: seq<byte>) returns (err: Option<Err>)
    modifies ch, fw.w
    ensures ch.lasts == Later(old(ch.lasts), 1)
    ensures err == Some(GONE) <==> old(ch.lasts) == Some(0)
    ensures err == Some(SendError(FrameTooLarge)) <==> old(ch.lasts) != Some(0) && |data| > MAX_FRAME_SIZE
    ensures err == None || err == Some(SendError(Reset)) <==> old(ch.lasts) != Some(0) && |data| <= MAX_FRAME_SIZE
    ensures err == Some(GONE) || err == Some(SendError(FrameTooLarge)) ==> fw.w.written == old(fw.w.written)
    ensures err == None ==> fw.w.written == old(fw.w.written) + Encode(data)
    ensures err == Some(SendError(Reset)) ==> old(fw.w.written) <= fw.w.written < old(fw.w.written) + Encode(data)
    ensures err.Some? ==> (IsStreamClosed(err.value) <==> old(ch.lasts) == Some(0))
    ensures old(fw.w.room) == None ==> err != Some(SendError(Reset)) && fw.w.room == None
  {
    var found := ch.GetChannel();
    if !found {
      return Some(GONE);
    }
    var e := fw.WriteFrame(data);
    err := if e.Some? then Some(SendError(e.value)) else None;
  }

  /** The first n records are on the wire, whole and in order. */
  ghost predicate OnTheWire(before: seq<byte>, now: seq<byte>, input: seq<seq<byte>>, n: nat)
  {
    n <= |input| && AllFit(input, n) && now == before + Wire(input, n)
  }

  /** The channel was gone when the last of the records taken was to be sent. */
  predicate GoneAt(lasts: Option<nat>, taken: nat)
  {
    taken > 0 && lasts == Some(taken - 1)
  }

  /** All records taken but the last are on the wire, and the last one is, or what a failed write has
      left of it, or nothing when it is too large or the channel is gone.  nil means that every
      record was written or that the channel was gone. */
  ghost predicate SendOutcome(before: seq<byte>, now: seq<byte>, input: seq<seq<byte>>, lasts: Option<nat>, taken: nat, err: Option<Err>)
  {
    && taken <= |input| && before <= now <= before + Wire(input, taken)
    && (taken > 0 ==> before + Wire(input, taken - 1) <= now && AllFit(input, taken - 1))
    && (err == None <==> (taken == |input| && OnTheWire(before, now, input, taken)) || GoneAt(lasts, taken))
    && (GoneAt(lasts, taken) ==> now == before + Wire(input, taken - 1))
    && (err == Some(SendError(FrameTooLarge)) <==>
          taken > 0 && !GoneAt(lasts, taken) && |input[taken - 1]| > MAX_FRAME_SIZE)
  }

  /** SendStream over the records of a channel that is closed after them.  It stops at the first
      record that is too large, that the transport does not take, or that finds the channel gone. */
  method SendStream(ch: Registration, fw: FrameWriter, input: seq<seq<byte>>) returns (taken: nat, err: Option<Err>)
    modifies ch, fw.w
    ensures SendOutcome(old(fw.w.written), fw.w.written, input, old(ch.lasts), taken, err)
  {
    taken := 0;
    ghost var before, lasts := fw.w.written, ch.lasts;
    SentNothing(before, input);
    while taken < |input|
      invariant StillThere(lasts, taken) && ch.lasts == Later(lasts, taken)
      invariant OnTheWire(before, fw.w.written, input, taken)
    {
      var data := input[taken];
      var e := SendNext(ch, fw, data, before, input, lasts, taken);
      taken := taken + 1;
      if e.Some? {
        return taken, LoopResult(e.value);
      }
    }
    AllSent(before, fw.w.written, input, lasts);
    return taken, None;
  }

  /** The first n look-ups have found the channel. */
  predicate StillThere(lasts: Option<nat>, n: nat)
  {
    lasts.Some? ==> n <= lasts.value
  }

  lemma SentNothing(before: seq<byte>, input: seq<seq<byte>>)
    ensures OnTheWire(before, before, input, 0)
  {
  }

  lemma AllSent(before: seq<byte>, now: seq<byte>, input: seq<seq<byte>>, lasts: Option<nat>)
    requires OnTheWire(before, now, input, |input|) && StillThere(lasts, |input|)
    ensures SendOutcome(before, now, input, lasts, |input|, None)
  {
    if input != [] {
      WireNext(before, input, |input| - 1);
    }
  }

  /** One Send, in terms of the wire. */
  method SendNext(ch: Registration, fw: FrameWriter, data: seq<byte>, ghost before: seq<byte>, ghost input: seq<seq<byte>>,
                  ghost lasts: Option<nat>, ghost n: nat)
    returns (err: Option<Err>)
    requires n < |input| && data == input[n] && OnTheWire(before, fw.w.written, input, n)
    requires StillThere(lasts, n) && ch.lasts == Later(lasts, n)
    modifies ch, fw.w
    ensures ch.lasts == Later(lasts, n + 1)
    ensures err == None ==> OnTheWire(before, fw.w.written, input, n + 1) && StillThere(lasts, n + 1)
    ensures err.Some? ==> SendOutcome(before, fw.w.written, input, lasts, n + 1, LoopResult(err.value))
  {
    ghost var start := fw.w.written;
    err := Send(ch, fw, data);
    WireNext(before, input, n);
    PrefixTransitive(before, start, fw.w.written);
  }

  lemma PrefixTransitive(a: seq<byte>, b: seq<byte>, c: seq<byte>)
    requires a <= b <= c
    ensures a <= c
  {
  }

  /** ReceiveStream without cancellation: everything ReadFrame yields goes out, in order, until it
      fails or the channel is gone at a look-up, which is reported as nil. */
  method ReceiveStream(ch: Registration, fr: FrameReader) returns (out: seq<Record>, err: Option<Err>)
    modifies ch, fr.r
    ensures var all := ReadAll(old(fr.r.rest), fr.r.fault);
            if StillThere(old(ch.lasts), |all.0| + 1) then out == all.0 && err == LoopResult(ReceiveError(all.1))
            else out == all.0[..old(ch.lasts).value] && err == None
  {
    out := [];
    ghost var all, lasts := ReadAll(fr.r.rest, fr.r.fault), ch.lasts;
    while true
      invariant ToCome(out, fr.r.rest, fr.r.fault, all)
      invariant StillThere(lasts, |out|) && ch.lasts == Later(lasts, |out|)
      decreases |fr.r.rest|
    {
      ghost var rest := fr.r.rest;
      var found := ch.GetChannel();
      if !found {
        CutOff(out, rest, fr.r.fault, all);
        return out, LoopResult(GONE);
      }
      var frame, e := fr.ReadFrame();
      ComesNext(out, rest, fr.r.fault, all);
      if e.Some? {
        return out, LoopResult(ReceiveError(e.value));
      }
      out := out + [frame];
    }
  }

  /** What is out, and what reading on will add. */
  ghost predicate ToCome(out: seq<Record>, rest: seq<byte>, fault: IOError, all: (seq<Record>, IOError))
  {
    out + ReadAll(rest, fault).0 == all.0 && ReadAll(rest, fault).1 == all.1
  }

  lemma CutOff(out: seq<Record>, rest: seq<byte>, fault: IOError, all: (seq<Record>, IOError))
    requires ToCome(out, rest, fault, all)
    ensures |out| <= |all.0| && out == all.0[..|out|]
  {
  }

  lemma ComesNext(out: seq<Record>, rest: seq<byte>, fault: IOError, all: (seq<Record>, IOError))
    requires ToCome(out, rest, fault, all)
    ensures match ReadFrameSpec(rest, fault)
            case Got(frame, left) => ToCome(out + [frame], left, fault, all) && |out| < |all.0|
            case Failed(e, _) => out == all.0 && e == all.1
  {
    match ReadFrameSpec(rest, fault)
    case Got(frame, left) => assert out + ([frame] + ReadAll(left, fault).0) == (out + [frame]) + ReadAll(left, fault).0;
    case Failed(e, _) =>
  }

  /** ReceiveStream reports nil exactly when the byte stream ended with EOF without an oversized
      prefix in front of its end: a stream cut anywhere, even inside a record, counts as closed. */
  lemma NilAlsoOnTruncation(s: seq<byte>, fault: IOError)
    requires fault == EOF || fault == Reset
    ensures !HasFrame(Leftover(s))
    ensures LoopResult(ReceiveError(ReadAll(s, fault).1)) == None <==>
            fault == EOF && (|Leftover(s)| < 4 || Uint32(Leftover(s)[..4]) <= MAX_FRAME_SIZE)
  {
    ReadAllMeaning(s, fault);
  }

  // ----- the concurrent pipeline

  datatype Outcome = Running | Returned(err: Option<Err>)

  /** SendStream and the transport it writes to. */
  datatype Sender = Sender(
    input: seq<seq<byte>>,   // the records of `in`, which is closed after them
    taken: nat,              // how many SendStream has received
    pending: seq<byte>,      // bytes of the current WriteFrame not yet taken by the transport
    status: Outcome,
    failure: Option<Err>,    // what Send failed with
    sent: seq<byte>,         // all bytes the transport took
    closed: bool,            // the sending side closed the stream
    gone: bool)              // and has removed the channel

  /** Disconnect closes the stream and then removes the channel.  The caller does so when SendStream
      has returned (Close, Unregister); another goroutine may do so before (CloseEarly, Unregister). */
  datatype SenderStep =
    | Take | WriteSome(k: nat) | WriteFail(e: IOError) | InputClosed | SenderCancel
    | Close | CloseEarly | Unregister

  predicate SenderEnabled(s: Sender, step: SenderStep)
  {
    match step
    case Take => s.status == Running && s.pending == [] && s.taken < |s.input|
    case WriteSome(k) => s.status == Running && 1 <= k <= |s.pending| && !s.closed
    case WriteFail(e) => s.status == Running && s.pending != [] && e != FrameTooLarge
    case InputClosed => s.status == Running && s.pending == [] && s.taken >= |s.input|
    case SenderCancel => s.status == Running && s.pending == []
    case Close => s.status.Returned? && !s.closed
    case CloseEarly => s.status == Running && !s.closed
    case Unregister => s.closed && !s.gone
  }

  function SenderApply(s: Sender, step: SenderStep): Sender
    requires SenderEnabled(s, step)
  {
    match step
    case Take =>
      var r := s.input[s.taken];
      if s.gone then Failed(s.(taken := s.taken + 1), GONE)
      else if |r| > MAX_FRAME_SIZE then Failed(s.(taken := s.taken + 1), SendError(FrameTooLarge))
      else s.(taken := s.taken + 1, pending := Encode(r))
    case WriteSome(k) => s.(sent := s.sent + s.pending[..k], pending := s.pending[k..])
    case WriteFail(e) => Failed(s, SendError(e))
    case InputClosed => s.(status := Returned(None))
    case SenderCancel => s.(status := Returned(Some(Cancelled)))
    case Close => s.(closed := true)
    case CloseEarly => s.(closed := true)
    case Unregister => s.(gone := true)
  }

  /** SendStream returns because Send failed. */
  function Failed(s: Sender, err: Err): Sender
  {
    s.(failure := Some(err), pending := [], status := Returned(LoopResult(err)))
  }

  /** What the reader goroutine puts into its one-place channel. */
  datatype Item = Data(rec: Record) | Fail(err: Err)

  datatype ReaderPc = Reading | Holding(item: Item) | Stopped

  /** The reader goroutine, its channel and ReceiveStream's forwarding loop. */
  datatype Receiver = Receiver(
    got: seq<byte>,          // all bytes the frame reader consumed
    reader: ReaderPc,
    slot: seq<Item>,         // rcvCh, capacity 1
    held: Option<Record>,    // taken from rcvCh, not yet on `out`
    status: Outcome,
    out: seq<Record>)

  datatype ReceiverStep = ReadSome(chunk: seq<byte>) | ReadEof | ReadFault(cause: Err) | Offer | Recv | Emit | ReceiverCancel

  /** An announced payload size the reader refuses. */
  predicate Oversize(left: seq<byte>)
  {
    |left| >= 4 && Uint32(left[..4]) > MAX_FRAME_SIZE
  }

  /** How many bytes the io.ReadFull in progress still asks for. */
  function Wanted(left: seq<byte>): nat
  {
    if |left| < 4 then 4 - |left|
    else if Uint32(left[..4]) + 4 > |left| then Uint32(left[..4]) + 4 - |left|
    else 0
  }

  /** `sent` is what the transport has taken so far and `closed` whether it ended there. */
  predicate ReceiverEnabled(s: Receiver, step: ReceiverStep, sent: seq<byte>, closed: bool)
  {
    match step
    case ReadSome(chunk) => s.reader == Reading && 1 <= |chunk| <= Wanted(Leftover(s.got)) && s.got + chunk <= sent
    case ReadEof => s.reader == Reading && closed && s.got == sent
    case ReadFault(cause) => s.reader == Reading && cause != Cancelled   // Receive is not given the context
    case Offer => s.reader.Holding? && s.slot == []
    case Recv => s.status == Running && s.held == None && s.slot != []
    case Emit => s.status == Running && s.held.Some?
    case ReceiverCancel => s.status == Running
  }

  function ReceiverApply(s: Receiver, step: ReceiverStep, sent: seq<byte>, closed: bool): Receiver
    requires ReceiverEnabled(s, step, sent, closed)
  {
    match step
    case ReadSome(chunk) => AfterRead(s, s.got + chunk, Leftover(s.got) + chunk)
    case ReadEof =>
      var left := |Leftover(s.got)|;
      s.(reader := Holding(Fail(ReceiveError(ShortRead(if left < 4 then left else left - 4, EOF)))))
    case ReadFault(cause) => s.(reader := Holding(Fail(cause)))
    case Offer => s.(slot := [s.reader.item], reader := if s.reader.item.Data? then Reading else Stopped)
    case Recv =>
      (match s.slot[0]
       case Data(rec) => s.(slot := s.slot[1..], held := Some(rec))
       case Fail(err) => s.(slot := s.slot[1..], status := Returned(LoopResult(err))))
    case Emit => s.(out := s.out + [s.held.value], held := None)
    case ReceiverCancel => s.(status := Returned(Some(Cancelled)), held := None)
  }

  /** The reader goroutine after a read: it has a frame, a refused prefix, or must read on. */
  function AfterRead(s: Receiver, got: seq<byte>, left: seq<byte>): Receiver
  {
    if Oversize(left) then s.(got := got, reader := Holding(Fail(ReceiveError(FrameTooLarge))))
    else if HasFrame(left) && HeadFrame(left) != [] then s.(got := got, reader := Holding(Data(HeadFrame(left))))
    else s.(got := got)
  }

  datatype Pipeline = Pipeline(tx: Sender, rx: Receiver)

  datatype Step = Tx(send: SenderStep) | Rx(receive: ReceiverStep)

  function Start(input: seq<seq<byte>>): Pipeline
  {
    Pipeline(Sender(input, 0, [], Running, None, [], false, false), Receiver([], Reading, [], None, Running, []))
  }

  predicate Enabled(p: Pipeline, step: Step)
  {
    match step
    case Tx(st) => SenderEnabled(p.tx, st)
    case Rx(st) => ReceiverEnabled(p.rx, st, p.tx.sent, p.tx.closed)
  }

  function Apply(p: Pipeline, step: Step): Pipeline
    requires Enabled(p, step)
  {
    match step
    case Tx(st) => p.(tx := SenderApply(p.tx, st))
    case Rx(st) => p.(rx := ReceiverApply(p.rx, st, p.tx.sent, p.tx.closed))
  }

  // ----- what every step keeps: the sender

  /** Send failed before it wrote anything of the record. */
  predicate Unwritten(s: Sender)
  {
    s.failure == Some(GONE) || s.failure == Some(SendError(FrameTooLarge))
  }

  ghost predicate SenderInv(s: Sender)
  {
    && s.taken <= |s.input|
    && s.sent + s.pending <= Wire(s.input, s.taken)
    && (s.failure == None ==> s.sent + s.pending == Wire(s.input, s.taken))
    && (s.status.Returned? ==> s.pending == [])
    && (s.failure.Some? ==> s.status == Returned(LoopResult(s.failure.value)))
  }

  lemma SenderStepKeeps(s: Sender, step: SenderStep)
    requires SenderInv(s) && SenderEnabled(s, step)
    ensures SenderInv(SenderApply(s, step))
    ensures s.sent <= SenderApply(s, step).sent
  {
    match step
    case Take =>
      WireNext([], s.input, s.taken);
      assert s.sent + [] == s.sent;
      assert Wire(s.input, s.taken) <= Wire(s.input, s.taken + 1);
    case WriteSome(k) =>
      assert (s.sent + s.pending[..k]) + s.pending[k..] == s.sent + s.pending;
    case _ =>
  }

  /** Every record is on the transport, whole. */
  ghost predicate AllWritten(s: Sender)
  {
    s.taken == |s.input| && AllFit(s.input, s.taken) && s.sent == Wire(s.input, s.taken)
  }

  /** What Send and SendStream have left on the transport when they end. */
  ghost predicate EndInv(s: Sender)
  {
    && s.taken <= |s.input|
    && (s.failure == None ==> AllFit(s.input, s.taken))
    && (s.pending != [] ==> s.taken > 0 && |s.pending| <= |Wire(s.input, s.taken)| - |Wire(s.input, s.taken - 1)|)
    && (s.failure.Some? ==> s.taken > 0 && AllFit(s.input, s.taken - 1) && Wire(s.input, s.taken - 1) <= s.sent && !AllWritten(s))
    && (Unwritten(s) ==> s.sent == Wire(s.input, s.taken - 1))
    && (s.failure == Some(GONE) ==> s.gone)
    && (s.status == Returned(None) && s.failure == None ==> s.taken == |s.input|)
    && (s.failure == None && s.status.Returned? ==> s.status == Returned(None) || s.status == Returned(Some(Cancelled)))
  }

  /** A sequence cut inside its second part. */
  lemma CutInside(x: seq<byte>, y: seq<byte>, a: seq<byte>, b: seq<byte>)
    requires x + y == a + b && |y| <= |b|
    ensures a <= x
  {
    assert (x + y)[..|a|] == (a + b)[..|a|];
    assert (x + y)[..|a|] == x[..|a|];
  }

  lemma TakeEnds(s: Sender)
    requires SenderInv(s) && EndInv(s) && SenderEnabled(s, Take)
    ensures EndInv(SenderApply(s, Take))
  {
    WireNext([], s.input, s.taken);
    assert s.sent + [] == s.sent;
  }

  /** A write that fails has left part of the last record, but not all of it. */
  lemma PartOfLast(s: Sender)
    requires SenderInv(s) && EndInv(s) && s.failure == None && s.pending != []
    ensures Wire(s.input, s.taken - 1) <= s.sent && |s.sent| < |Wire(s.input, s.taken)|
  {
    var w := Wire(s.input, s.taken - 1);
    WireNext([], s.input, s.taken - 1);
    assert Wire(s.input, s.taken) == w + Encode(s.input[s.taken - 1]);
    CutInside(s.sent, s.pending, w, Encode(s.input[s.taken - 1]));
    assert |s.sent| < |s.sent + s.pending|;
  }

  lemma WriteFailEnds(s: Sender, e: IOError)
    requires SenderInv(s) && EndInv(s) && SenderEnabled(s, WriteFail(e))
    ensures EndInv(SenderApply(s, WriteFail(e)))
  {
    PartOfLast(s);
  }

  lemma WriteSomeEnds(s: Sender, k: nat)
    requires EndInv(s) && SenderEnabled(s, WriteSome(k)) && s.failure == None
    ensures EndInv(SenderApply(s, WriteSome(k)))
  {
  }

  lemma EndStepKeeps(s: Sender, step: SenderStep)
    requires SenderInv(s) && EndInv(s) && SenderEnabled(s, step)
    ensures EndInv(SenderApply(s, step))
  {
    match step
    case Take => TakeEnds(s);
    case WriteSome(k) => WriteSomeEnds(s, k);
    case WriteFail(e) => WriteFailEnds(s, e);
    case InputClosed => InputClosedEnds(s);
    case _ => StandStillEnds(s, step);
  }

  lemma InputClosedEnds(s: Sender)
    requires EndInv(s) && (s.failure.Some? ==> s.status.Returned?) && SenderEnabled(s, InputClosed)
    ensures EndInv(SenderApply(s, InputClosed))
  {
  }

  /** The steps that neither take nor write. */
  lemma StandStillEnds(s: Sender, step: SenderStep)
    requires EndInv(s) && (s.failure.Some? ==> s.status.Returned?)
    requires SenderEnabled(s, step) && !step.Take? && !step.WriteSome? && !step.WriteFail? && !step.InputClosed?
    ensures EndInv(SenderApply(s, step))
  {
  }

  // ----- what every step keeps: the receiver

  function ItemData(item: Item): seq<Record>
  {
    if item.Data? then [item.rec] else []
  }

  /** The records between the frame reader and the consumer, oldest first. */
  function InTransit(s: Receiver): seq<Record>
  {
    (if s.held.Some? then [s.held.value] else [])
    + (if s.slot != [] then ItemData(s.slot[0]) else [])
    + (if s.reader.Holding? then ItemData(s.reader.item) else [])
  }

  ghost predicate ReceiverInv(s: Receiver, sent: seq<byte>)
  {
    && s.got <= sent
    && (s.reader == Reading || (s.reader.Holding? && s.reader.item.Data?) ==> !Oversize(Leftover(s.got)))
    && |s.slot| <= 1
    && s.out <= Payloads(s.got)
    && (s.status != Returned(Some(Cancelled)) ==> s.out + InTransit(s) == Payloads(s.got))
  }

  /** A read that does not ask for more than its ReadFull completes at most one frame, and then exactly. */
  lemma ReadCompletesOneFrame(left: seq<byte>, chunk: seq<byte>)
    requires !HasFrame(left) && !Oversize(left) && 1 <= |chunk| <= Wanted(left)
    ensures HasFrame(left + chunk) ==> Records(left + chunk) == [HeadFrame(left + chunk)] && Leftover(left + chunk) == []
    ensures !HasFrame(left + chunk) ==> Records(left + chunk) == [] && Leftover(left + chunk) == left + chunk
  {
    if |left| >= 4 {
      assert (left + chunk)[..4] == left[..4];
    }
    if HasFrame(left + chunk) {
      assert AfterFrame(left + chunk) == [];
    }
  }

  /** The payload a read completes, given the bytes of the current frame so far. */
  function Arrived(left: seq<byte>): seq<Record>
  {
    if HasFrame(left) && HeadFrame(left) != [] then [HeadFrame(left)] else []
  }

  lemma PayloadsAfterRead(got: seq<byte>, chunk: seq<byte>)
    requires !Oversize(Leftover(got)) && 1 <= |chunk| <= Wanted(Leftover(got))
    ensures Payloads(got + chunk) == Payloads(got) + Arrived(Leftover(got) + chunk)
    ensures Oversize(Leftover(got + chunk)) ==> Oversize(Leftover(got) + chunk)
  {
    var now := Leftover(got) + chunk;
    ParseThenPrint(got);
    ParseAppend(got, chunk);
    ReadCompletesOneFrame(Leftover(got), chunk);
    NonEmptyAppend(Records(got), Records(now));
    if HasFrame(now) {
      var one: seq<Record> := [HeadFrame(now)];
      assert one[1..] == [];
      assert NonEmpty(one) == Arrived(now);
    }
  }

  lemma ReadSomeKeeps(s: Receiver, chunk: seq<byte>, sent: seq<byte>)
    requires ReceiverInv(s, sent) && ReceiverEnabled(s, ReadSome(chunk), sent, false)
    ensures ReceiverInv(AfterRead(s, s.got + chunk, Leftover(s.got) + chunk), sent)
  {
    PayloadsAfterRead(s.got, chunk);
    var now := Leftover(s.got) + chunk;
    var after := AfterRead(s, s.got + chunk, now);
    assert InTransit(after) == InTransit(s) + Arrived(now);
    assert s.out + InTransit(after) == (s.out + InTransit(s)) + Arrived(now);
  }

  lemma RecvKeeps(s: Receiver, sent: seq<byte>)
    requires ReceiverInv(s, sent) && ReceiverEnabled(s, Recv, sent, false)
    ensures ReceiverInv(ReceiverApply(s, Recv, sent, false), sent)
  {
    assert InTransit(ReceiverApply(s, Recv, sent, false)) == InTransit(s);
  }

  lemma EmitKeeps(s: Receiver, sent: seq<byte>)
    requires ReceiverInv(s, sent) && ReceiverEnabled(s, Emit, sent, false)
    ensures ReceiverInv(ReceiverApply(s, Emit, sent, false), sent)
  {
    assert s.out + InTransit(s) == (s.out + [s.held.value]) + InTransit(s.(held := None));
  }

  lemma ReadEndsKeeps(s: Receiver, err: Err, sent: seq<byte>)
    requires ReceiverInv(s, sent) && s.reader == Reading
    ensures ReceiverInv(s.(reader := Holding(Fail(err))), sent)
  {
    assert InTransit(s.(reader := Holding(Fail(err)))) == InTransit(s);
  }

  lemma ReceiverStepKeeps(s: Receiver, step: ReceiverStep, sent: seq<byte>, closed: bool)
    requires ReceiverInv(s, sent) && ReceiverEnabled(s, step, sent, closed)
    ensures ReceiverInv(ReceiverApply(s, step, sent, closed), sent)
  {
    match step
    case ReadSome(chunk) => ReadSomeKeeps(s, chunk, sent);
    case ReadEof =>
      var left := |Leftover(s.got)|;
      ReadEndsKeeps(s, ReceiveError(ShortRead(if left < 4 then left else left - 4, EOF)), sent);
    case ReadFault(cause) => ReadEndsKeeps(s, cause, sent);
    case Offer => assert InTransit(ReceiverApply(s, step, sent, closed)) == InTransit(s);
    case Recv => RecvKeeps(s, sent);
    case Emit => EmitKeeps(s, sent);
    case ReceiverCancel =>
  }

  // ----- the theorems

  ghost predicate Inv(p: Pipeline)
  {
    SenderInv(p.tx) && ReceiverInv(p.rx, p.tx.sent)
  }

  lemma StepKeeps(p: Pipeline, step: Step)
    requires Inv(p) && Enabled(p, step)
    ensures Inv(Apply(p, step))
    ensures Apply(p, step).tx.input == p.tx.input
  {
    match step
    case Tx(st) => SenderStepKeeps(p.tx, st);
    case Rx(st) => ReceiverStepKeeps(p.rx, st, p.tx.sent, p.tx.closed);
  }

  ghost predicate IsRun(p: Pipeline, steps: seq<Step>)
    decreases |steps|
  {
    steps == [] || (Enabled(p, steps[0]) && IsRun(Apply(p, steps[0]), steps[1..]))
  }

  ghost function End(p: Pipeline, steps: seq<Step>): Pipeline
    requires IsRun(p, steps)
    decreases |steps|
  {
    if steps == [] then p else End(Apply(p, steps[0]), steps[1..])
  }

  lemma {:induction false} RunKeeps(p: Pipeline, steps: seq<Step>)
    requires Inv(p) && IsRun(p, steps)
    ensures Inv(End(p, steps)) && End(p, steps).tx.input == p.tx.input
    decreases |steps|
  {
    if steps != [] {
      StepKeeps(p, steps[0]);
      RunKeeps(Apply(p, steps[0]), steps[1..]);
    }
  }

  /** In every reachable state of every run, what has come out is a prefix of the non-empty
      records that went in and fit into a frame: nothing is reordered, duplicated, cut or made up,
      whatever fails or is cancelled. */
  lemma EmittedIsPrefixOfSent(input: seq<seq<byte>>, steps: seq<Step>)
    requires IsRun(Start(input), steps)
    ensures var e := End(Start(input), steps);
            e.tx.taken <= |input| && e.rx.out <= NonEmpty(Fitting(input[..e.tx.taken]))
  {
    RunKeeps(Start(input), steps);
    InvGivesPrefix(End(Start(input), steps));
  }

  // ----- how ReceiveStream ends

  /** The failure of the transport in a run, if there was one; reading stops at the first. */
  function FaultOf(steps: seq<Step>): Option<Err>
  {
    if steps == [] then None
    else if steps[0].Rx? && steps[0].receive.ReadFault? then Some(steps[0].receive.cause)
    else FaultOf(steps[1..])
  }

  predicate Cancels(steps: seq<Step>)
  {
    steps != [] && (steps[0] == Rx(ReceiverCancel) || Cancels(steps[1..]))
  }

  /** What ended the reading: that failure, or what ReadFrame makes of the bytes when they end. */
  function WhatFailed(got: seq<byte>, fault: Option<Err>): Err
  {
    match fault
    case Some(cause) => cause
    case None => ReceiveError(ReadAll(got, EOF).1)
  }

  /** A failure goes through the channel to the end of the loop as it is. */
  ghost predicate FailInv(s: Receiver, fault: Option<Err>, cancelled: bool)
  {
    && (fault.Some? ==> s.reader != Reading && fault.value != Cancelled)
    && (s.reader.Holding? && s.reader.item.Fail? ==> s.reader.item.err == WhatFailed(s.got, fault))
    && (s.slot != [] && s.slot[0].Fail? ==> s.reader == Stopped && s.slot[0].err == WhatFailed(s.got, fault))
    && (fault.Some? && s.reader.Holding? ==> s.reader.item.Fail?)
    && (cancelled ==> s.status == Returned(Some(Cancelled)))
    && (s.status.Returned? && !cancelled ==>
          s.status == Returned(LoopResult(WhatFailed(s.got, fault))) && s.reader == Stopped && s.slot == [] && s.held == None)
  }

  function FaultAfter(fault: Option<Err>, step: Step): Option<Err>
  {
    if fault == None && step.Rx? && step.receive.ReadFault? then Some(step.receive.cause) else fault
  }

  lemma OversizeIsTooLarge(got: seq<byte>, chunk: seq<byte>)
    requires !Oversize(Leftover(got)) && 1 <= |chunk| <= Wanted(Leftover(got)) && Oversize(Leftover(got) + chunk)
    ensures ReadAll(got + chunk, EOF).1 == FrameTooLarge
  {
    ParseThenPrint(got);
    ParseAppend(got, chunk);
    ReadAllMeaning(got + chunk, EOF);
    assert Leftover(Leftover(got) + chunk) == Leftover(got) + chunk;
  }

  lemma EofIsShort(got: seq<byte>)
    requires !Oversize(Leftover(got))
    ensures var left := |Leftover(got)|;
            ReadAll(got, EOF).1 == ShortRead(if left < 4 then left else left - 4, EOF)
  {
    ReadAllMeaning(got, EOF);
  }

  lemma FailStepKeeps(s: Receiver, step: ReceiverStep, sent: seq<byte>, closed: bool, fault: Option<Err>, cancelled: bool)
    requires ReceiverInv(s, sent) && FailInv(s, fault, cancelled) && ReceiverEnabled(s, step, sent, closed)
    ensures FailInv(ReceiverApply(s, step, sent, closed), FaultAfter(fault, Rx(step)), cancelled || step.ReceiverCancel?)
  {
    match step
    case ReadSome(chunk) =>
      if Oversize(Leftover(s.got) + chunk) {
        OversizeIsTooLarge(s.got, chunk);
      }
    case ReadEof => EofIsShort(s.got);
    case _ =>
  }

  lemma {:induction false} FailRunKeeps(p: Pipeline, steps: seq<Step>, fault: Option<Err>, cancelled: bool)
    requires Inv(p) && FailInv(p.rx, fault, cancelled) && IsRun(p, steps)
    ensures FailInv(End(p, steps).rx, if fault.Some? then fault else FaultOf(steps), cancelled || Cancels(steps))
    decreases |steps|
  {
    if steps != [] {
      StepKeeps(p, steps[0]);
      if steps[0].Rx? {
        FailStepKeeps(p.rx, steps[0].receive, p.tx.sent, p.tx.closed, fault, cancelled);
      }
      FailRunKeeps(Apply(p, steps[0]), steps[1..], FaultAfter(fault, steps[0]), cancelled || steps[0] == Rx(ReceiverCancel));
    }
  }

  /** Once ReceiveStream has returned without being cancelled, every payload read is out, and it has
      returned nil exactly when what ended the reading counts as a closed stream, and otherwise
      that very error.  Without a failure of the transport it returns what the loop on its own
      does on the bytes read. */
  lemma ReceiverNilIff(input: seq<seq<byte>>, steps: seq<Step>)
    requires IsRun(Start(input), steps) && End(Start(input), steps).rx.status.Returned?
    ensures var s, failed := End(Start(input), steps).rx, WhatFailed(End(Start(input), steps).rx.got, FaultOf(steps));
            && (Cancels(steps) ==> s.status == Returned(Some(Cancelled)))
            && (!Cancels(steps) ==>
                  && s.out == Payloads(s.got) == ReadAll(s.got, EOF).0
                  && (s.status == Returned(None) <==> IsStreamClosed(failed))
                  && (!IsStreamClosed(failed) ==> s.status == Returned(Some(failed))))
  {
    RunKeeps(Start(input), steps);
    FailRunKeeps(Start(input), steps, None, false);
    var s := End(Start(input), steps).rx;
    ReadAllMeaning(s.got, EOF);
    if !Cancels(steps) {
      ClosingErrors(ReadAll(s.got, EOF).1);
      assert s.out + InTransit(s) == s.out;
    }
  }

  // ----- how SendStream ends

  lemma {:induction false} SenderEnds(p: Pipeline, steps: seq<Step>)
    requires Inv(p) && EndInv(p.tx) && IsRun(p, steps)
    ensures EndInv(End(p, steps).tx)
    decreases |steps|
  {
    if steps != [] {
      StepKeeps(p, steps[0]);
      if steps[0].Tx? {
        EndStepKeeps(p.tx, steps[0].send);
      }
      SenderEnds(Apply(p, steps[0]), steps[1..]);
    }
  }

  /** The failure of a write in a run, if there was one; sending stops at the first. */
  function WriteFaultOf(steps: seq<Step>): Option<IOError>
  {
    if steps == [] then None
    else if steps[0].Tx? && steps[0].send.WriteFail? then Some(steps[0].send.e)
    else WriteFaultOf(steps[1..])
  }

  function WriteFaultAfter(fault: Option<IOError>, step: Step): Option<IOError>
  {
    if fault == None && step.Tx? && step.send.WriteFail? then Some(step.send.e) else fault
  }

  /** Send failed with the failure of the write, or before it wrote, because the channel was gone or
      the record too large. */
  ghost predicate SendFailInv(s: Sender, fault: Option<IOError>)
  {
    && (fault.Some? ==> s.failure == Some(SendError(fault.value)))
    && (s.failure.Some? ==> s.status.Returned?)
    && (fault == None && s.failure.Some? ==>
          && 0 < s.taken <= |s.input|
          && (s.failure == Some(GONE) || (s.failure == Some(SendError(FrameTooLarge)) && |s.input[s.taken - 1]| > MAX_FRAME_SIZE)))
  }

  lemma SendFailStepKeeps(s: Sender, step: SenderStep, fault: Option<IOError>)
    requires SendFailInv(s, fault) && SenderEnabled(s, step)
    ensures SendFailInv(SenderApply(s, step), WriteFaultAfter(fault, Tx(step)))
  {
  }

  /** What Send failed with, over every run. */
  lemma {:induction false} SendFailRunKeeps(p: Pipeline, steps: seq<Step>, fault: Option<IOError>)
    requires SendFailInv(p.tx, fault) && IsRun(p, steps)
    ensures SendFailInv(End(p, steps).tx, if fault.Some? then fault else WriteFaultOf(steps))
    decreases |steps|
  {
    if steps != [] {
      if steps[0].Tx? {
        SendFailStepKeeps(p.tx, steps[0].send, fault);
      }
      SendFailRunKeeps(Apply(p, steps[0]), steps[1..], WriteFaultAfter(fault, steps[0]));
    }
  }

  /** Documented as the end of its input, nil has exactly one other cause: unless it was cancelled,
      SendStream has returned nil exactly when every record is written, or when Send failed with an
      error that counts as a closed stream; the channel being gone is one, and leaves every record
      from that one on unwritten. */
  lemma SenderNilIff(input: seq<seq<byte>>, steps: seq<Step>)
    requires IsRun(Start(input), steps)
    ensures var s := End(Start(input), steps).tx;
            s.status.Returned? && s.status != Returned(Some(Cancelled)) ==>
              && (s.status == Returned(None) <==> AllWritten(s) || (s.failure.Some? && IsStreamClosed(s.failure.value)))
              && (s.failure.Some? ==> s.status == Returned(LoopResult(s.failure.value)))
              && SendFailInv(s, WriteFaultOf(steps))
              && (s.failure == Some(GONE) ==> s.gone && 0 < s.taken <= |input| && s.sent == Wire(input, s.taken - 1))
  {
    RunKeeps(Start(input), steps);
    SenderEnds(Start(input), steps);
    SendFailRunKeeps(Start(input), steps, None);
    var s := End(Start(input), steps).tx;
    assert s.status.Returned? ==> s.sent + s.pending == s.sent;
  }

  /** A disconnection by another goroutine makes it report nil with nothing written at all. */
  lemma NilWithNothingSent(input: seq<seq<byte>>)
    requires input != []
    ensures var steps := [Tx(CloseEarly), Tx(Unregister), Tx(Take)];
            && IsRun(Start(input), steps)
            && End(Start(input), steps).tx.status == Returned(None) && End(Start(input), steps).tx.sent == []
  {
    var p := Start(input);
    var q := Apply(p, Tx(CloseEarly));
    var r := Apply(q, Tx(Unregister));
    assert IsRun(Apply(r, Tx(Take)), []);
    assert [Tx(Take)][1..] == [] && [Tx(Unregister), Tx(Take)][1..] == [Tx(Take)];
    assert IsRun(r, [Tx(Take)]) && End(r, [Tx(Take)]) == Apply(r, Tx(Take));
    assert IsRun(q, [Tx(Unregister), Tx(Take)]) && End(q, [Tx(Unregister), Tx(Take)]) == Apply(r, Tx(Take));
    assert [Tx(CloseEarly), Tx(Unregister), Tx(Take)][1..] == [Tx(Unregister), Tx(Take)];
  }

  lemma InvGivesPrefix(p: Pipeline)
    requires Inv(p)
    ensures p.rx.out <= NonEmpty(Fitting(p.tx.input[..p.tx.taken]))
  {
    var all := Fitting(p.tx.input[..p.tx.taken]);
    WireIsEncodeAll(p.tx.input, p.tx.taken);
    PayloadsOfEncodeAll(all);
    var stream := EncodeAll(all);
    assert p.rx.got == stream[..|p.rx.got|];
    TruncationYieldsPrefix(stream, |p.rx.got|);
  }

  // ----- termination and completeness

  function Untaken(rs: seq<seq<byte>>, n: nat): nat
    decreases |rs| - n
  {
    if n >= |rs| then 0 else 1 + 9 * (|rs[n]| + 4) + Untaken(rs, n + 1)
  }

  function SenderWork(s: Sender): nat
  {
    Untaken(s.input, s.taken) + 8 * |s.pending| + (if s.status == Running then 1 else 0) + (if s.closed then 0 else 1) + (if s.gone then 0 else 1)
  }

  function ReceiverWork(s: Receiver): nat
  {
    (match s.reader
     case Reading => 4
     case Holding(item) => if item.Data? then 7 else 3
     case Stopped => 0)
    + 2 * |s.slot| + (if s.held.Some? then 1 else 0) + (if s.status == Running then 1 else 0)
  }

  /** Work left: every byte still has to be written and read, every record offered, received and emitted. */
  function Work(p: Pipeline): int
  {
    SenderWork(p.tx) + ReceiverWork(p.rx) + 7 * (|p.tx.sent| - |p.rx.got|)
  }

  lemma SenderStepWorks(s: Sender, step: SenderStep)
    requires SenderEnabled(s, step)
    ensures SenderWork(SenderApply(s, step)) + 7 * (|SenderApply(s, step).sent| - |s.sent|) < SenderWork(s)
  {
  }

  lemma ReceiverStepWorks(s: Receiver, step: ReceiverStep, sent: seq<byte>, closed: bool)
    requires ReceiverEnabled(s, step, sent, closed)
    ensures var t := ReceiverApply(s, step, sent, closed);
            ReceiverWork(t) - 7 * (|t.got| - |s.got|) < ReceiverWork(s)
  {
  }

  lemma StepWorks(p: Pipeline, step: Step)
    requires Inv(p) && Enabled(p, step)
    ensures 0 <= Work(Apply(p, step)) < Work(p)
  {
    StepKeeps(p, step);
    match step
    case Tx(st) => SenderStepWorks(p.tx, st);
    case Rx(st) => ReceiverStepWorks(p.rx, st, p.tx.sent, p.tx.closed);
  }

  /** No interleaving goes on for ever: the length of every run is bounded by the input. */
  lemma {:induction false} RunsEnd(p: Pipeline, steps: seq<Step>)
    requires Inv(p) && IsRun(p, steps)
    ensures |steps| <= Work(p)
    decreases |steps|
  {
    if steps != [] {
      StepWorks(p, steps[0]);
      StepKeeps(p, steps[0]);
      RunsEnd(Apply(p, steps[0]), steps[1..]);
    }
  }

  /** Neither a failure of the transport, nor a cancellation, nor a disconnection before the end. */
  predicate Graceful(step: Step)
  {
    match step
    case Tx(st) => !st.WriteFail? && !st.SenderCancel? && !st.CloseEarly?
    case Rx(st) => !st.ReadFault? && !st.ReceiverCancel?
  }

  ghost predicate GracefulInv(p: Pipeline)
  {
    && AllFit(p.tx.input, |p.tx.input|)
    && p.tx.failure == None
    && (p.tx.status.Returned? ==> p.tx.status == Returned(None) && p.tx.taken == |p.tx.input|)
    && (p.tx.closed ==> p.tx.status.Returned?) && (p.tx.gone ==> p.tx.closed)
    && (p.rx.reader == Stopped || (p.rx.reader.Holding? && p.rx.reader.item.Fail?) ==> p.tx.closed && p.rx.got == p.tx.sent)
    && (p.rx.reader.Holding? && p.rx.reader.item.Fail? ==> IsStreamClosed(p.rx.reader.item.err))
    && (p.rx.slot != [] && p.rx.slot[0].Fail? ==> p.rx.reader == Stopped && IsStreamClosed(p.rx.slot[0].err))
    && (p.rx.reader == Stopped && p.rx.status == Running ==> p.rx.slot != [] && p.rx.slot[0].Fail?)
    && (p.rx.status.Returned? ==> p.rx.status == Returned(None) && p.rx.reader == Stopped && p.rx.held == None && p.rx.slot == [])
  }

  /** Whoever reads a prefix of well-formed frames never sees an oversized announcement. */
  lemma PrefixNotOversize(rs: seq<Record>, t: seq<byte>)
    requires t <= EncodeAll(rs)
    ensures !Oversize(Leftover(t))
  {
    var u := EncodeAll(rs)[|t|..];
    assert t + u == EncodeAll(rs);
    PayloadsOfEncodeAll(rs);
    ParseAppend(t, u);
    var left := Leftover(t);
    if |left| >= 4 {
      assert (left + u)[..4] == left[..4];
    }
  }

  lemma ReadNotOversize(p: Pipeline, chunk: seq<byte>)
    requires Inv(p) && Enabled(p, Rx(ReadSome(chunk)))
    ensures !Oversize(Leftover(p.rx.got) + chunk)
  {
    var left := Leftover(p.rx.got);
    WireIsEncodeAll(p.tx.input, p.tx.taken);
    PrefixNotOversize(Fitting(p.tx.input[..p.tx.taken]), p.rx.got + chunk);
    ParseThenPrint(p.rx.got);
    ParseAppend(p.rx.got, chunk);
    ReadCompletesOneFrame(left, chunk);
  }

  lemma {:induction false} AllFitAt(rs: seq<seq<byte>>, n: nat, i: nat)
    requires i < n <= |rs| && AllFit(rs, n)
    ensures |rs[i]| <= MAX_FRAME_SIZE
  {
    if i < n - 1 {
      AllFitAt(rs, n - 1, i);
    }
  }

  lemma GracefulTxKeeps(p: Pipeline, st: SenderStep)
    requires GracefulInv(p) && SenderInv(p.tx) && Enabled(p, Tx(st)) && Graceful(Tx(st))
    ensures GracefulInv(Apply(p, Tx(st)))
  {
    if st == Take {
      AllFitAt(p.tx.input, |p.tx.input|, p.tx.taken);
    }
  }

  lemma GracefulReadKeeps(p: Pipeline, chunk: seq<byte>)
    requires Inv(p) && GracefulInv(p) && Enabled(p, Rx(ReadSome(chunk)))
    ensures GracefulInv(Apply(p, Rx(ReadSome(chunk))))
  {
    ReadNotOversize(p, chunk);
  }

  lemma GracefulRxKeeps(p: Pipeline, st: ReceiverStep)
    requires GracefulInv(p) && |p.rx.slot| <= 1 && Enabled(p, Rx(st)) && Graceful(Rx(st)) && !st.ReadSome?
    ensures GracefulInv(Apply(p, Rx(st)))
  {
  }

  lemma GracefulStepKeeps(p: Pipeline, step: Step)
    requires Inv(p) && GracefulInv(p) && Enabled(p, step) && Graceful(step)
    ensures GracefulInv(Apply(p, step))
  {
    match step
    case Tx(st) => GracefulTxKeeps(p, st);
    case Rx(st) =>
      if st.ReadSome? {
        GracefulReadKeeps(p, st.chunk);
      } else {
        GracefulRxKeeps(p, st);
      }
  }

  /** Everything arrived and both loops returned nil. */
  ghost predicate Complete(p: Pipeline)
  {
    && p.tx.status == Returned(None) && p.rx.status == Returned(None)
    && p.rx.out == NonEmpty(Fitting(p.tx.input)) && |Fitting(p.tx.input)| == |p.tx.input|
  }

  lemma NextByte(sent: seq<byte>, got: seq<byte>)
    requires got <= sent && got != sent
    ensures |got| < |sent| && got + sent[|got|..|got| + 1] <= sent
  {
    assert got + sent[|got|..|got| + 1] == sent[..|got| + 1];
  }

  lemma SomethingToRead(p: Pipeline)
    requires ReceiverInv(p.rx, p.tx.sent) && p.rx.reader == Reading && p.rx.got != p.tx.sent
    ensures |p.rx.got| < |p.tx.sent|
    ensures Enabled(p, Rx(ReadSome(p.tx.sent[|p.rx.got|..|p.rx.got| + 1])))
  {
    ParseThenPrint(p.rx.got);
    NextByte(p.tx.sent, p.rx.got);
  }

  /** With a draining consumer there is always a next step until everything has arrived. */
  lemma ProgressUntilComplete(p: Pipeline) returns (step: Step)
    requires Inv(p) && GracefulInv(p)
    ensures Complete(p) || (Graceful(step) && Enabled(p, step))
  {
    step := Rx(Emit);
    if p.tx.status == Running {
      step := Tx(if p.tx.pending != [] then WriteSome(1) else if p.tx.taken < |p.tx.input| then Take else InputClosed);
    } else if !p.tx.closed {
      step := Tx(Close);
    } else if p.rx.reader == Reading && p.rx.got == p.tx.sent {
      step := Rx(ReadEof);
    } else if p.rx.reader == Reading {
      SomethingToRead(p);
      step := Rx(ReadSome(p.tx.sent[|p.rx.got|..|p.rx.got| + 1]));
    } else if p.rx.reader.Holding? && p.rx.slot == [] {
      step := Rx(Offer);
    } else if p.rx.status == Running {
      step := Rx(if p.rx.held.Some? then Emit else Recv);
    } else {
      EverythingArrived(p);
    }
  }

  lemma EverythingArrived(p: Pipeline)
    requires Inv(p) && GracefulInv(p) && p.tx.status.Returned? && p.rx.status.Returned?
    ensures Complete(p)
  {
    var input := p.tx.input;
    assert input[..|input|] == input;
    WireIsEncodeAll(input, |input|);
    PayloadsOfEncodeAll(Fitting(input));
    AllFitLength(input, |input|);
    assert p.tx.sent + p.tx.pending == p.tx.sent;
    assert p.rx.got == EncodeAll(Fitting(input));
    assert p.rx.out + InTransit(p.rx) == p.rx.out;
  }

  lemma {:induction false} AllFitLength(rs: seq<seq<byte>>, n: nat)
    requires n <= |rs| && AllFit(rs, n)
    ensures |Fitting(rs[..n])| == n
  {
    if n > 0 {
      AllFitLength(rs, n - 1);
      assert rs[..n] == rs[..n - 1] + [rs[n - 1]];
      FittingNext(rs[..n - 1], rs[n - 1]);
    }
  }

  lemma {:induction false} GracefulRunKeeps(p: Pipeline, steps: seq<Step>)
    requires Inv(p) && GracefulInv(p) && IsRun(p, steps) && forall i | 0 <= i < |steps| :: Graceful(steps[i])
    ensures GracefulInv(End(p, steps)) && Inv(End(p, steps))
    decreases |steps|
  {
    if steps != [] {
      StepKeeps(p, steps[0]);
      GracefulStepKeeps(p, steps[0]);
      GracefulRunKeeps(Apply(p, steps[0]), steps[1..]);
      assert End(p, steps) == End(Apply(p, steps[0]), steps[1..]);
    }
  }

  /** When no record is oversized, nothing fails, nobody cancels and the consumer drains, a run
      that cannot go on has delivered all non-empty records, and both sides returned nil. */
  lemma GracefulRunsDeliverAll(input: seq<seq<byte>>, steps: seq<Step>)
    requires AllFit(input, |input|)
    requires IsRun(Start(input), steps) && forall i | 0 <= i < |steps| :: Graceful(steps[i])
    requires forall step :: Graceful(step) ==> !Enabled(End(Start(input), steps), step)
    ensures Complete(End(Start(input), steps))
    ensures End(Start(input), steps).tx.input == input
  {
    RunKeeps(Start(input), steps);
    GracefulRunKeeps(Start(input), steps);
    var step := ProgressUntilComplete(End(Start(input), steps));
  }
}
