/**
 * What the local data pipe promises across calls, proved about the functions of
 * `DataPipeModel`: the pipe is a FIFO over any run of operations, an all-or-none transfer
 * moves everything or nothing, a two-phase transfer does what the copying one does on the
 * contiguous run it is offered, a bad end commits nothing and ends the two-phase operation,
 * the signals an end reports agree with what its operations can do, and closing an end
 * keeps the data but refuses further writes.
 */
module PipeProperties {
  import opened Wrappers
  import opened MojoResults
  import opened HandleSignals
  import opened AwakableList
  import opened Alignment
  import opened RingLayout
  import opened DataPipeRules
  import opened DataPipeModel

  /** Both ends open and no two-phase operation active: every data operation may be issued. */
  predicate Ready(p: PipeState) {
    p.Valid() && p.producerOpen && p.consumerOpen && p.producerTwoPhase.None? && p.consumerTwoPhase.None?
  }

  /** The element size and the capacity, which no operation changes. */
  predicate SameShape(p: PipeState, q: PipeState) {
    p.elementNumBytes == q.elementNumBytes && p.capacityNumBytes == q.capacityNumBytes
  }

  /**
   * A data operation a client issues on a ready pipe. A two-phase operation is begun (for
   * whatever the pipe offers) and ended with `numBytes` in one step; a two-phase write
   * stores `fill`, cut or padded with zeros to the offered length, in its lease.
   */
  datatype Op =
    | Write(elements: seq<byte>, allOrNone: bool)
    | Read(numBytes: nat, allOrNone: bool)
    | Peek(numBytes: nat, allOrNone: bool)
    | Discard(numBytes: nat, allOrNone: bool)
    | TwoPhaseWrite(fill: seq<byte>, numBytes: nat)
    | TwoPhaseRead(numBytes: nat)

  /** A run of operations: the pipe after it, the bytes that entered the FIFO and the bytes that left it, in order. */
  datatype Trace = Trace(final: PipeState, entered: seq<byte>, left: seq<byte>)

  /** What the producer leaves in a lease of `n` bytes: `fill`, cut or padded with zeros. */
  function Fill(fill: seq<byte>, n: nat): (r: seq<byte>)
    ensures |r| == n
  {
    seq(n, i requires 0 <= i < n => if i < |fill| then fill[i] else 0)
  }

  /**
   * One operation on a ready pipe. The pipe is ready again afterwards, and no byte is lost,
   * duplicated or reordered: what was held plus what entered is what left plus what is held.
   */
  function Step(p: PipeState, op: Op): (r: Trace)
    requires Ready(p)
    ensures Ready(r.final)
    ensures SameShape(p, r.final)
    ensures p.contents + r.entered == r.left + r.final.contents
  {
    match op
    case Write(elements, allOrNone) =>
      var o := ProducerWriteData(p, elements, |elements|, allOrNone);
      Trace(o.after, elements[..o.numBytes], [])
    case Read(n, allOrNone) => ReadStep(p, n, allOrNone)
    case Peek(n, allOrNone) =>
      var o := ConsumerReadData(p, n, allOrNone, true);
      Trace(o.after, [], [])
    case Discard(n, allOrNone) => DiscardStep(p, n, allOrNone)
    case TwoPhaseWrite(fill, n) => TwoPhaseWriteStep(p, fill, n)
    case TwoPhaseRead(n) => TwoPhaseReadStep(p, n)
  }

  /** A copying read: the bytes it hands out are the bytes that leave. */
  function ReadStep(p: PipeState, n: nat, allOrNone: bool): (r: Trace)
    requires Ready(p)
    ensures Ready(r.final) && r.entered == []
    ensures SameShape(p, r.final)
    ensures p.contents == r.left + r.final.contents
  {
    var o := ConsumerReadData(p, n, allOrNone, false);
    assert p.contents == o.data + o.after.contents;
    Trace(o.after, [], o.data)
  }

  /** A discard: the oldest bytes leave without being handed out. */
  function DiscardStep(p: PipeState, n: nat, allOrNone: bool): (r: Trace)
    requires Ready(p)
    ensures Ready(r.final) && r.entered == []
    ensures SameShape(p, r.final)
    ensures p.contents == r.left + r.final.contents
  {
    var o := ConsumerDiscardData(p, n, allOrNone);
    assert p.contents == p.contents[..o.numBytes] + o.after.contents;
    Trace(o.after, [], p.contents[..o.numBytes])
  }

  /** A two-phase write begun for the whole free run and ended with `n` bytes of `fill`. */
  function TwoPhaseWriteStep(p: PipeState, fill: seq<byte>, n: nat): (r: Trace)
    requires Ready(p)
    ensures Ready(r.final) && r.left == []
    ensures SameShape(p, r.final)
    ensures p.contents + r.entered == r.final.contents
  {
    var b := ProducerBeginWriteData(p, 0, false);
    if b.result != Ok then Trace(b.after, [], [])
    else
      var written := Fill(fill, b.numBytes);
      var e := ProducerEndWriteData(b.after, n, written);
      Trace(e.after, if e.result == Ok then written[..n] else [], [])
  }

  /** A two-phase read begun for the whole readable run and ended with `n` bytes. */
  function TwoPhaseReadStep(p: PipeState, n: nat): (r: Trace)
    requires Ready(p)
    ensures Ready(r.final) && r.entered == []
    ensures SameShape(p, r.final)
    ensures p.contents == r.left + r.final.contents
  {
    var b := ConsumerBeginReadData(p, 0, false);
    if b.result != Ok then Trace(b.after, [], [])
    else
      var e := ConsumerEndReadData(b.after, n);
      if e.result != Ok then Trace(e.after, [], [])
      else
        assert b.data[..n] == p.contents[..n];
        assert p.contents == p.contents[..n] + e.after.contents;
        Trace(e.after, [], b.data[..n])
  }

  /** Operations applied one after another, collecting what entered and what left. */
  function Run(p: PipeState, ops: seq<Op>): (r: Trace)
    requires Ready(p)
    ensures Ready(r.final)
    ensures SameShape(p, r.final)
    decreases |ops|
  {
    if ops == [] then Trace(p, [], [])
    else
      var s := Step(p, ops[0]);
      var t := Run(s.final, ops[1..]);
      Trace(t.final, s.entered + t.entered, s.left + t.left)
  }

  /**
   * The pipe is a FIFO over any run of operations: the bytes held at the start followed by
   * the bytes that entered are exactly the bytes that left followed by the bytes held now.
   */
  lemma {:induction false} RunIsFifo(p: PipeState, ops: seq<Op>)
    requires Ready(p)
    ensures p.contents + Run(p, ops).entered == Run(p, ops).left + Run(p, ops).final.contents
    decreases |ops|
  {
    if ops != [] {
      var s := Step(p, ops[0]);
      var t := Run(s.final, ops[1..]);
      RunIsFifo(s.final, ops[1..]);
      Chain(p.contents, s.entered, s.left, s.final.contents, t.entered, t.left, t.final.contents);
    }
  }

  /** Two conserving stretches in a row conserve: the bookkeeping step of `RunIsFifo`. */
  lemma Chain(start: seq<byte>, in1: seq<byte>, out1: seq<byte>, mid: seq<byte>, in2: seq<byte>, out2: seq<byte>, end: seq<byte>)
    requires start + in1 == out1 + mid && mid + in2 == out2 + end
    ensures start + (in1 + in2) == (out1 + out2) + end
  {
    calc {
      start + (in1 + in2);
      (start + in1) + in2;
      (out1 + mid) + in2;
      out1 + (mid + in2);
      out1 + (out2 + end);
    }
  }

  /**
   * From an empty pipe, the bytes read out are a prefix of the bytes written in, the pipe
   * holds the rest, and never more than its capacity.
   */
  lemma ReadsArePrefixOfWrites(p: PipeState, ops: seq<Op>)
    requires Ready(p) && p.contents == []
    ensures var t := Run(p, ops);
      && |t.left| <= |t.entered|
      && t.left == t.entered[..|t.left|]
      && t.final.contents == t.entered[|t.left|..]
      && |t.entered| - |t.left| <= p.capacityNumBytes
  {
    RunIsFifo(p, ops);
    var t := Run(p, ops);
    PrefixOfWhatEntered(t.entered, t.left, t.final.contents);
  }

  /** If nothing was held at the start, what left is a prefix of what entered and the rest is held. */
  lemma PrefixOfWhatEntered(entered: seq<byte>, left: seq<byte>, held: seq<byte>)
    requires [] + entered == left + held
    ensures |left| <= |entered| && left == entered[..|left|] && held == entered[|left|..]
  {
    assert entered == left + held;
  }

  /** A peek hands out the bytes the next read of the same length hands out, and changes nothing. */
  lemma PeekThenReadAgree(p: PipeState, numBytes: nat, allOrNone: bool)
    requires p.Valid() && p.consumerOpen && p.consumerTwoPhase.None?
    ensures var peek := ConsumerReadData(p, numBytes, allOrNone, true);
      var read := ConsumerReadData(peek.after, numBytes, allOrNone, false);
      && peek.after == p && peek.woken == []
      && read.result == peek.result && read.numBytes == peek.numBytes && read.data == peek.data
  {
  }

  /** `ConsumerQueryData` reports exactly what a non-all-or-none read of the whole capacity would hand out. */
  lemma QueryIsWhatAReadTakes(p: PipeState)
    requires p.Valid() && p.consumerOpen && p.consumerTwoPhase.None?
    ensures ConsumerReadData(p, p.capacityNumBytes, false, true).numBytes == ConsumerQueryData(p)
    ensures ConsumerReadData(p, p.capacityNumBytes, false, true).data == p.contents
  {
  }

  /**
   * An all-or-none write of whole elements with the consumer open succeeds exactly when
   * the whole request fits in the free space, and then writes all of it; otherwise it is
   * OUT_OF_RANGE and the pipe is left exactly as it was.
   */
  lemma AllOrNoneWriteIsAllOrNothing(p: PipeState, elements: seq<byte>, numBytes: nat)
    requires p.Valid() && p.producerOpen && p.consumerOpen && p.producerTwoPhase.None? && numBytes <= |elements|
    requires numBytes % p.elementNumBytes == 0
    ensures var r := ProducerWriteData(p, elements, numBytes, true);
      && (r.result == Ok <==> |p.contents| + numBytes <= p.capacityNumBytes)
      && (r.result == Ok ==> r.after.contents == p.contents + elements[..numBytes])
      && (r.result != Ok ==> r.result == OutOfRange && r.after == p && r.woken == [])
  {
    var r := ProducerWriteData(p, elements, numBytes, true);
    if r.result != Ok {
      assert elements[..0] == [] && p.contents + [] == p.contents;
      assert r.after == p;
    }
  }

  /**
   * An all-or-none read of whole elements succeeds exactly when that many bytes are there,
   * and then takes the oldest ones; otherwise it is OUT_OF_RANGE (FAILED_PRECONDITION once
   * the producer is closed) and the pipe is left exactly as it was.
   */
  lemma AllOrNoneReadIsAllOrNothing(p: PipeState, numBytes: nat)
    requires p.Valid() && p.consumerOpen && p.consumerTwoPhase.None?
    requires numBytes % p.elementNumBytes == 0
    ensures var r := ConsumerReadData(p, numBytes, true, false);
      && (r.result == Ok <==> numBytes <= |p.contents|)
      && (r.result == Ok ==> r.data == p.contents[..numBytes] && r.after.contents == p.contents[numBytes..])
      && (r.result != Ok ==> r.result == (if p.producerOpen then OutOfRange else FailedPrecondition)
                             && r.after == p && r.data == [] && r.woken == [])
  {
    var r := ConsumerReadData(p, numBytes, true, false);
    if r.result != Ok {
      assert p.contents[0..] == p.contents;
      assert Slot(p.startIndex, 0, p.capacityNumBytes) == p.startIndex;
      assert r.after == p;
    }
  }

  /**
   * A two-phase write is offered the contiguous free run at the write index: it stays
   * inside the buffer, never exceeds the free space, and is all of the free space unless
   * the free space wraps past the end of the buffer.
   */
  lemma TwoPhaseWriteOffersContiguousRun(p: PipeState, numBytes: nat, allOrNone: bool)
    requires p.Valid() && p.producerOpen && p.producerTwoPhase.None?
    ensures var b := ProducerBeginWriteData(p, numBytes, allOrNone);
      var at := WriteIndex(p.startIndex, |p.contents|, p.capacityNumBytes);
      b.result == Ok ==>
        && b.after.producerTwoPhase == Some(Lease(at, b.numBytes))
        && at + b.numBytes <= p.capacityNumBytes
        && b.numBytes <= p.capacityNumBytes - |p.contents|
        && (b.numBytes == p.capacityNumBytes - |p.contents| || at + b.numBytes == p.capacityNumBytes)
  {
  }

  /**
   * A two-phase read is offered the contiguous readable run at the start: the oldest bytes,
   * inside the buffer, and all of the data unless it wraps past the end of the buffer.
   */
  lemma TwoPhaseReadOffersContiguousRun(p: PipeState, numBytes: nat, allOrNone: bool)
    requires p.Valid() && p.consumerOpen && p.consumerTwoPhase.None?
    ensures var b := ConsumerBeginReadData(p, numBytes, allOrNone);
      b.result == Ok ==>
        && b.after.consumerTwoPhase == Some(Lease(p.startIndex, b.numBytes))
        && p.startIndex + b.numBytes <= p.capacityNumBytes
        && b.data == p.contents[..b.numBytes]
        && (b.numBytes == |p.contents| || p.startIndex + b.numBytes == p.capacityNumBytes)
  {
  }

  /**
   * Ending a two-phase write with `n` whole elements (n > 0) of the offered run leaves the
   * pipe as a copying write of the same bytes would have left it.
   */
  lemma TwoPhaseWriteAgreesWithWrite(p: PipeState, written: seq<byte>, n: nat)
    requires p.Valid() && p.producerOpen && p.producerTwoPhase.None?
    requires ProducerBeginWriteData(p, 0, false).result == Ok
    requires |written| == ProducerBeginWriteData(p, 0, false).numBytes
    requires 0 < n <= |written| && n % p.elementNumBytes == 0
    ensures var e := ProducerEndWriteData(ProducerBeginWriteData(p, 0, false).after, n, written);
      var w := ProducerWriteData(p, written, n, false);
      && e.result == Ok && w.result == Ok && w.numBytes == n
      && e.after == w.after
  {
    var b := ProducerBeginWriteData(p, 0, false);
    assert b.numBytes == MaxNumBytesToWrite(p.startIndex, |p.contents|, p.capacityNumBytes);
    assert n <= p.capacityNumBytes - |p.contents|;
  }

  /**
   * Ending a two-phase read with `n` whole elements (n > 0) of the offered run leaves the
   * pipe as a copying read of `n` bytes would have left it, and that read hands out the
   * first `n` bytes the two-phase read was shown.
   */
  lemma TwoPhaseReadAgreesWithRead(p: PipeState, n: nat)
    requires p.Valid() && p.consumerOpen && p.consumerTwoPhase.None?
    requires ConsumerBeginReadData(p, 0, false).result == Ok
    requires 0 < n <= ConsumerBeginReadData(p, 0, false).numBytes && n % p.elementNumBytes == 0
    ensures var b := ConsumerBeginReadData(p, 0, false);
      var e := ConsumerEndReadData(b.after, n);
      var r := ConsumerReadData(p, n, false, false);
      && e.result == Ok && r.result == Ok
      && e.after == r.after && r.data == b.data[..n]
  {
    var b := ConsumerBeginReadData(p, 0, false);
    assert b.after.(consumerTwoPhase := None) == p;
  }

  /**
   * Ending a two-phase write with a length that is too long or not whole elements is
   * INVALID_ARGUMENT, commits nothing and still ends the write, so that ending it again is
   * FAILED_PRECONDITION.
   */
  lemma BadEndWriteCommitsNothing(p: PipeState, written: seq<byte>, n: nat)
    requires p.Valid() && p.producerOpen && p.producerTwoPhase.Some?
    requires |written| == p.producerTwoPhase.value.numBytes
    requires n > |written| || n % p.elementNumBytes != 0
    ensures var e := ProducerEndWriteData(p, n, written);
      && e.result == InvalidArgument
      && e.after == p.(producerTwoPhase := None)
      && ProducerEndWriteData(e.after, 0, []).result == FailedPrecondition
      && ProducerEndWriteData(e.after, 0, []).after == e.after
  {
  }

  /**
   * Ending a two-phase read with a length that is too long or not whole elements is
   * INVALID_ARGUMENT, consumes nothing and still ends the read, so that ending it again is
   * FAILED_PRECONDITION.
   */
  lemma BadEndReadConsumesNothing(p: PipeState, n: nat)
    requires p.Valid() && p.consumerOpen && p.consumerTwoPhase.Some?
    requires n > p.consumerTwoPhase.value.numBytes || n % p.elementNumBytes != 0
    ensures var e := ConsumerEndReadData(p, n);
      && e.result == InvalidArgument
      && e.after == p.(consumerTwoPhase := None)
      && ConsumerEndReadData(e.after, 0).result == FailedPrecondition
      && ConsumerEndReadData(e.after, 0).after == e.after
  {
  }

  /**
   * The producer reports WRITABLE exactly when a copying write of one element would
   * succeed; such a write, when it succeeds, writes the whole element.
   */
  lemma {:induction false} WritableIffWriteSucceeds(p: PipeState, element: seq<byte>)
    requires p.Valid() && p.producerOpen && p.producerTwoPhase.None? && |element| == p.elementNumBytes
    ensures var w := ProducerWriteData(p, element, |element|, false);
      && (p.ProducerState().Satisfies(Writable) <==> w.result == Ok)
      && (w.result == Ok ==> w.after.contents == p.contents + element)
  {
    var c, cap, e := |p.contents|, p.capacityNumBytes, p.elementNumBytes;
    ProducerWritableIffRoom(p.consumerOpen, false, c, cap, e);
    AlignedGap(c, cap, e);
    assert element[..e] == element;
  }

  /**
   * The consumer reports READABLE exactly when a copying read of one element would
   * succeed, and that read hands out the oldest element.
   */
  lemma {:induction false} ReadableIffReadSucceeds(p: PipeState)
    requires p.Valid() && p.consumerOpen && p.consumerTwoPhase.None?
    ensures var r := ConsumerReadData(p, p.elementNumBytes, false, true);
      && (p.ConsumerState().Satisfies(Readable) <==> r.result == Ok)
      && (r.result == Ok ==> r.data == p.contents[..p.elementNumBytes])
  {
    var e := p.elementNumBytes;
    ConsumerReadableIffData(p.producerOpen, false, |p.contents|, e);
    AlignedGap(0, |p.contents|, e);
  }

  /**
   * Closing the producer keeps the committed bytes: the consumer can still read all of
   * them, is READABLE exactly while some remain, and sees PEER_CLOSED; once they are gone
   * every read of whole elements is FAILED_PRECONDITION and nothing can be satisfied but
   * PEER_CLOSED.
   */
  lemma {:induction false} ProducerCloseKeepsData(p: PipeState)
    requires p.Valid() && p.producerOpen && p.consumerOpen && p.consumerTwoPhase.None?
    ensures var q := ProducerClose(p).after;
      var r := ConsumerReadData(q, |p.contents|, true, false);
      && q.contents == p.contents
      && q.ConsumerState().satisfied.peerClosed
      && (q.ConsumerState().Satisfies(Readable) <==> p.contents != [])
      && r.data == p.contents && r.after.contents == []
      && r.after.ConsumerState() == HandleSignalsState(PeerClosed, PeerClosed)
      && ConsumerReadData(r.after, p.elementNumBytes, false, false).result == FailedPrecondition
  {
    var q := ProducerClose(p).after;
    ConsumerReadableIffData(false, false, |p.contents|, p.elementNumBytes);
    AlignedGap(0, |p.contents|, p.elementNumBytes);
  }

  /**
   * Closing the consumer leaves the producer PEER_CLOSED and nothing else; from then on
   * writing and beginning a two-phase write are FAILED_PRECONDITION and change nothing.
   */
  lemma {:induction false} ConsumerCloseRefusesWrites(p: PipeState, elements: seq<byte>, numBytes: nat, allOrNone: bool)
    requires p.Valid() && p.producerOpen && p.consumerOpen && p.producerTwoPhase.None? && numBytes <= |elements|
    ensures var q := ConsumerClose(p).after;
      var w := ProducerWriteData(q, elements, numBytes, allOrNone);
      var b := ProducerBeginWriteData(q, numBytes, allOrNone);
      && q.ProducerState() == HandleSignalsState(PeerClosed, PeerClosed)
      && w.result == FailedPrecondition && w.after == q
      && b.result == FailedPrecondition && b.after == q
  {
    var q := ConsumerClose(p).after;
    ProducerAfterPeerClosed(false, |q.contents|, q.capacityNumBytes);
    assert elements[..0] == [] && q.contents + [] == q.contents;
  }

  /** Removing an awakable from a list with a registration appended drops that registration too. */
  lemma {:induction false} RemoveAppended(list: seq<Registration>, reg: Registration)
    ensures Remove(list + [reg], reg.awakable) == Remove(list, reg.awakable)
    decreases |list|
  {
    if list == [] {
      assert [] + [reg] == [reg];
    } else {
      assert (list + [reg])[1..] == list[1..] + [reg];
      RemoveAppended(list[1..], reg);
    }
  }

  /**
   * Registering a wait on the producer end and then removing that awakable leaves the same
   * registrations as removing it straight away.
   */
  lemma {:induction false} ProducerAddThenRemove(p: PipeState, awakable: AwakableId, signals: Signals, context: nat)
    requires p.Valid() && p.producerOpen
    ensures var added := ProducerAddAwakable(p, awakable, signals, context).after;
      ProducerRemoveAwakable(added, awakable).after == ProducerRemoveAwakable(p, awakable).after
  {
    RemoveAppended(p.producerAwakables, Registration(awakable, signals, context));
    assert p.producerAwakables + [] == p.producerAwakables;
  }

  /**
   * Registering a wait on the consumer end and then removing that awakable leaves the same
   * registrations as removing it straight away.
   */
  lemma {:induction false} ConsumerAddThenRemove(p: PipeState, awakable: AwakableId, signals: Signals, context: nat)
    requires p.Valid() && p.consumerOpen
    ensures var added := ConsumerAddAwakable(p, awakable, signals, context).after;
      ConsumerRemoveAwakable(added, awakable).after == ConsumerRemoveAwakable(p, awakable).after
  {
    RemoveAppended(p.consumerAwakables, Registration(awakable, signals, context));
    assert p.consumerAwakables + [] == p.consumerAwakables;
  }
}
