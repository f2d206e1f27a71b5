/**
 * The decisions a data pipe makes before it touches its buffer: which status an operation
 * reports and how many bytes it moves or offers, and the signal state of each end. All
 * lengths are in bytes; `e` is the element size.
 */
module DataPipeRules {
  import opened Wrappers
  import opened MojoResults
  import opened HandleSignals
  import opened Alignment

  /** The status of a transfer and the byte count it reports back. */
  datatype Transfer = Transfer(result: MojoResult, numBytes: nat)

  /**
   * `ProducerWriteData`: fails once the consumer is closed; refuses a length that is not a
   * whole number of elements; a zero length is a no-op; an all-or-none write that does not
   * fit is OUT_OF_RANGE; otherwise as much as fits is written, and nothing fitting at all is
   * SHOULD_WAIT.
   */
  function WriteDecision(consumerOpen: bool, e: nat, freeNumBytes: nat, requested: nat, allOrNone: bool): (r: Transfer)
    requires e > 0
    ensures r.result != Ok ==> r.numBytes == 0
    ensures r.numBytes <= requested && r.numBytes <= freeNumBytes
    ensures !consumerOpen ==> r.result == FailedPrecondition
    ensures consumerOpen && requested % e != 0 ==> r.result == InvalidArgument
    ensures consumerOpen && requested % e == 0 && allOrNone ==>
      && (r.result == Ok <==> requested <= freeNumBytes)
      && (r.result == Ok ==> r.numBytes == requested)
      && (r.result != Ok ==> r.result == OutOfRange)
    ensures consumerOpen && requested % e == 0 && !allOrNone && requested > 0 ==>
      && r.numBytes == Min(requested, freeNumBytes)
      && r.result == (if freeNumBytes > 0 then Ok else ShouldWait)
    ensures freeNumBytes % e == 0 ==> r.numBytes % e == 0
  {
    if !consumerOpen then Transfer(FailedPrecondition, 0)
    else if requested % e != 0 then Transfer(InvalidArgument, 0)
    else if requested == 0 then Transfer(Ok, 0)
    else if allOrNone && requested > freeNumBytes then Transfer(OutOfRange, 0)
    else
      var n := Min(requested, freeNumBytes);
      if n == 0 then Transfer(ShouldWait, 0) else Transfer(Ok, n)
  }

  /**
   * `ConsumerReadData` and `ConsumerDiscardData`: refuse a length that is not a whole
   * number of elements; a zero length is a no-op; an all-or-none request for more than is
   * there is OUT_OF_RANGE while the producer is open and FAILED_PRECONDITION once it is
   * closed; otherwise as much as is there is taken, and nothing there at all is SHOULD_WAIT,
   * or FAILED_PRECONDITION once the producer is closed.
   */
  function ReadDecision(producerOpen: bool, e: nat, availableNumBytes: nat, requested: nat, allOrNone: bool): (r: Transfer)
    requires e > 0
    ensures r.result != Ok ==> r.numBytes == 0
    ensures r.numBytes <= requested && r.numBytes <= availableNumBytes
    ensures requested % e != 0 ==> r.result == InvalidArgument
    ensures requested % e == 0 && allOrNone ==>
      && (r.result == Ok <==> requested <= availableNumBytes)
      && (r.result == Ok ==> r.numBytes == requested)
      && (r.result != Ok ==> r.result == if producerOpen then OutOfRange else FailedPrecondition)
    ensures requested % e == 0 && !allOrNone && requested > 0 ==>
      && r.numBytes == Min(requested, availableNumBytes)
      && r.result == (if availableNumBytes > 0 then Ok else if producerOpen then ShouldWait else FailedPrecondition)
    ensures availableNumBytes % e == 0 ==> r.numBytes % e == 0
  {
    if requested % e != 0 then Transfer(InvalidArgument, 0)
    else if requested == 0 then Transfer(Ok, 0)
    else if allOrNone && requested > availableNumBytes then
      Transfer(if producerOpen then OutOfRange else FailedPrecondition, 0)
    else
      var n := Min(requested, availableNumBytes);
      if n == 0 then Transfer(if producerOpen then ShouldWait else FailedPrecondition, 0)
      else Transfer(Ok, n)
  }

  /**
   * `ProducerBeginWriteData`, given `run`, the contiguous room at the write index: fails
   * once the consumer is closed; in all-or-none mode the requested length must be whole
   * elements and must fit in `run` (the length is ignored otherwise); with no room at all
   * it is SHOULD_WAIT; on success the whole run is offered.
   */
  function BeginWriteDecision(consumerOpen: bool, e: nat, run: nat, requested: nat, allOrNone: bool): (r: Transfer)
    requires e > 0
    ensures r.result != Ok ==> r.numBytes == 0
    ensures r.result == Ok ==> r.numBytes == run && run > 0
    ensures !consumerOpen ==> r.result == FailedPrecondition
    ensures consumerOpen && allOrNone && requested % e != 0 ==> r.result == InvalidArgument
    ensures consumerOpen && allOrNone && requested % e == 0 && requested > run ==> r.result == OutOfRange
    ensures consumerOpen && (allOrNone ==> requested % e == 0 && requested <= run) ==>
      r.result == (if run > 0 then Ok else ShouldWait)
  {
    if !consumerOpen then Transfer(FailedPrecondition, 0)
    else if allOrNone && requested % e != 0 then Transfer(InvalidArgument, 0)
    else if allOrNone && requested > run then Transfer(OutOfRange, 0)
    else if run == 0 then Transfer(ShouldWait, 0)
    else Transfer(Ok, run)
  }

  /**
   * `ConsumerBeginReadData`, given `run`, the contiguous readable bytes at the start: in
   * all-or-none mode the requested length must be whole elements and must fit in `run`
   * (OUT_OF_RANGE, or FAILED_PRECONDITION once the producer is closed); with nothing to
   * read it is SHOULD_WAIT, or FAILED_PRECONDITION once the producer is closed; on success
   * the whole run is offered.
   */
  function BeginReadDecision(producerOpen: bool, e: nat, run: nat, requested: nat, allOrNone: bool): (r: Transfer)
    requires e > 0
    ensures r.result != Ok ==> r.numBytes == 0
    ensures r.result == Ok ==> r.numBytes == run && run > 0
    ensures allOrNone && requested % e != 0 ==> r.result == InvalidArgument
    ensures allOrNone && requested % e == 0 && requested > run ==>
      r.result == if producerOpen then OutOfRange else FailedPrecondition
    ensures (allOrNone ==> requested % e == 0 && requested <= run) ==>
      r.result == (if run > 0 then Ok else if producerOpen then ShouldWait else FailedPrecondition)
  {
    if allOrNone && requested % e != 0 then Transfer(InvalidArgument, 0)
    else if allOrNone && requested > run then
      Transfer(if producerOpen then OutOfRange else FailedPrecondition, 0)
    else if run == 0 then Transfer(if producerOpen then ShouldWait else FailedPrecondition, 0)
    else Transfer(Ok, run)
  }

  /**
   * `ProducerEndWriteData` / `ConsumerEndReadData` with `offered` the length the active
   * two-phase operation was offered (None: no two-phase operation is active).
   */
  function EndDecision(offered: Option<nat>, e: nat, numBytes: nat): (r: MojoResult)
    requires e > 0
    ensures r == FailedPrecondition <==> offered.None?
    ensures r == Ok <==> offered.Some? && numBytes <= offered.value && numBytes % e == 0
    ensures r in {Ok, FailedPrecondition, InvalidArgument}
  {
    if offered.None? then FailedPrecondition
    else if numBytes > offered.value || numBytes % e != 0 then InvalidArgument
    else Ok
  }

  /** The producer end's signals. */
  function ProducerSignals(consumerOpen: bool, inTwoPhaseWrite: bool, current: nat, capacity: nat): (r: HandleSignalsState)
    ensures r.Consistent()
  {
    HandleSignalsState(
      Signals(false, consumerOpen && !inTwoPhaseWrite && current < capacity, !consumerOpen),
      Signals(false, consumerOpen, true))
  }

  /** The consumer end's signals. */
  function ConsumerSignals(producerOpen: bool, inTwoPhaseRead: bool, current: nat): (r: HandleSignalsState)
    ensures r.Consistent()
  {
    HandleSignalsState(
      Signals(current > 0 && !inTwoPhaseRead, false, !producerOpen),
      Signals(current > 0 || producerOpen, false, true))
  }

  /**
   * The producer is WRITABLE exactly when the consumer is open, no two-phase write is
   * active and there is room for at least one element; it can become WRITABLE while the
   * consumer is open; it never becomes READABLE.
   */
  lemma {:induction false} ProducerWritableIffRoom(consumerOpen: bool, inTwoPhaseWrite: bool, current: nat, capacity: nat, e: nat)
    requires e > 0 && current <= capacity && current % e == 0 && capacity % e == 0
    ensures var s := ProducerSignals(consumerOpen, inTwoPhaseWrite, current, capacity);
      && (s.satisfied.writable <==> consumerOpen && !inTwoPhaseWrite && capacity - current >= e)
      && (s.satisfiable.writable <==> consumerOpen)
      && !s.satisfiable.readable && !s.satisfied.readable
  {
    AlignedGap(current, capacity, e);
  }

  /** Once the consumer is closed the producer's state collapses to PEER_CLOSED alone. */
  lemma ProducerAfterPeerClosed(inTwoPhaseWrite: bool, current: nat, capacity: nat)
    ensures ProducerSignals(false, inTwoPhaseWrite, current, capacity) == HandleSignalsState(PeerClosed, PeerClosed)
  {
  }

  /**
   * The consumer is READABLE exactly when at least one element is there and no two-phase
   * read is active; it stays able to become READABLE while data remains or the producer is
   * open; PEER_CLOSED holds exactly when the producer is closed; it never becomes WRITABLE.
   */
  lemma {:induction false} ConsumerReadableIffData(producerOpen: bool, inTwoPhaseRead: bool, current: nat, e: nat)
    requires e > 0 && current % e == 0
    ensures var s := ConsumerSignals(producerOpen, inTwoPhaseRead, current);
      && (s.satisfied.readable <==> current >= e && !inTwoPhaseRead)
      && (s.satisfiable.readable <==> current > 0 || producerOpen)
      && (s.satisfied.peerClosed <==> !producerOpen)
      && s.satisfiable.peerClosed
      && !s.satisfiable.writable && !s.satisfied.writable
  {
    AlignedGap(0, current, e);
  }
}
