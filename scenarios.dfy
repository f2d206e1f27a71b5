/**
 * The situations of the local data pipe's unit tests, replayed on the pipe's abstract
 * state. Each method creates a pipe, drives it through the test's sequence of operations
 * and promises the statuses, signal states, wake-ups and bytes the test expects. Element
 * values (the tests' `int32_t`s, or single bytes) are parameters: `x`, `y`, `z` are
 * elements of arbitrary content.
 */
module LocalDataPipeScenarios {
  import opened Wrappers
  import opened MojoResults
  import opened HandleSignals
  import opened AwakableList
  import opened DataPipeOptions
  import opened DataPipeModel

  /** The one waiter the tests use. */
  const W: AwakableId := 1

  const ProducerOpenState := HandleSignalsState(Writable, Writable.Union(PeerClosed))
  const ProducerFullState := HandleSignalsState(NoSignals, Writable.Union(PeerClosed))
  const ConsumerReadableState := HandleSignalsState(Readable, Readable.Union(PeerClosed))
  const ConsumerEmptyState := HandleSignalsState(NoSignals, Readable.Union(PeerClosed))
  const PeerClosedState := HandleSignalsState(PeerClosed, PeerClosed)

  /** A pipe open at both ends with no two-phase operation and no waiter. */
  function Idle(e: nat, capacity: nat, start: nat, contents: seq<byte>): PipeState {
    PipeState(e, capacity, start, contents, true, true, None, None, [], [])
  }

  /**
   * What the caller's buffer holds after a copying read that handed out `data`: those bytes
   * at its front and the rest as it was, as `LocalDataPipe.ConsumerReadData` promises of the
   * buffer it copies into.
   */
  function AfterRead(buffer: seq<byte>, data: seq<byte>): (r: seq<byte>)
    requires |data| <= |buffer|
    ensures |r| == |buffer| && r[..|data|] == data && r[|data|..] == buffer[|data|..]
  {
    data + buffer[|data|..]
  }

  /**
   * Creation: the null options, elements of one byte in 1000 bytes, of four bytes in 4000
   * bytes, and of 100 bytes with the default capacity all validate, and a pipe made with
   * each can be closed at both ends, waking nobody.
   */
  method Creation(configuredDefault: nat) returns (validated: seq<CreateOptions>, woken: seq<Wakeup>)
    requires configuredDefault > 0
    ensures |validated| == 4 && forall o :: o in validated ==> IsValid(o)
    ensures validated[0] == CreateOptions(1, configuredDefault)
    ensures validated[1] == CreateOptions(1, 1000) && validated[2] == CreateOptions(4, 4000)
    ensures validated[3] == CreateOptions(100, DefaultCapacity(100, configuredDefault))
    ensures woken == []
  {
    validated, woken := [], [];
    var r := ValidateCreateOptions(None, configuredDefault);
    var w := CreateAndClose(r.value);
    validated, woken := validated + [r.value], woken + w;
    r := ValidateCreateOptions(Some(CreateOptions(1, 1000)), configuredDefault);
    w := CreateAndClose(r.value);
    validated, woken := validated + [r.value], woken + w;
    r := ValidateCreateOptions(Some(CreateOptions(4, 4000)), configuredDefault);
    w := CreateAndClose(r.value);
    validated, woken := validated + [r.value], woken + w;
    r := ValidateCreateOptions(Some(CreateOptions(100, 0)), configuredDefault);
    w := CreateAndClose(r.value);
    validated, woken := validated + [r.value], woken + w;
  }

  /** A fresh pipe closed at the producer and then at the consumer wakes nobody. */
  method CreateAndClose(options: CreateOptions) returns (woken: seq<Wakeup>)
    requires IsValid(options)
    ensures woken == []
  {
    var c := ProducerClose(Create(options));
    var d := ConsumerClose(c.after);
    woken := c.woken + d.woken;
  }

  /**
   * The opening of every test after Creation: the test's options are validated, which
   * keeps them as they are, and a pipe is created with the validated options.
   */
  method ValidatedPipe(e: nat, capacity: nat, configuredDefault: nat)
    returns (validation: Result<CreateOptions, MojoResult>, p: PipeState)
    requires configuredDefault > 0 && e > 0 && capacity > 0 && capacity % e == 0
    ensures validation == Success(CreateOptions(e, capacity))
    ensures p == Idle(e, capacity, 0, [])
  {
    validation := ValidateCreateOptions(Some(CreateOptions(e, capacity)), configuredDefault);
    p := Create(validation.value);
  }

  /**
   * BasicProducerWaiting, on a pipe of two four-byte elements: the producer is never
   * READABLE, is WRITABLE until the pipe is full, is woken when a copying read (not a
   * peek) or a two-phase read makes room, and is woken with FAILED_PRECONDITION when the
   * consumer closes.
   */
  method BasicProducerWaiting(configuredDefault: nat, x: seq<byte>, y: seq<byte>, z: seq<byte>)
    returns (validation: Result<CreateOptions, MojoResult>, results: seq<MojoResult>, counts: seq<nat>, states: seq<HandleSignalsState>, woken: seq<Wakeup>, data: seq<byte>)
    requires configuredDefault > 0
    requires |x| == 4 && |y| == 4 && |z| == 4
    ensures results == [FailedPrecondition, AlreadyExists, Ok, Ok, Ok, Ok, Ok, Ok, Ok, Ok, Ok, Ok, Ok, Ok, Ok]
    ensures counts == [8, 4, 4, 4, 4, 4]
    ensures states == [ProducerOpenState, ProducerFullState, ProducerFullState, ProducerOpenState, ProducerOpenState, PeerClosedState]
    ensures woken == [Wakeup(W, Ok, 78), Wakeup(W, Ok, 90), Wakeup(W, FailedPrecondition, 12)]
    ensures data == x + x + y
    ensures validation == Success(CreateOptions(4, 8))
  {
    var p;
    validation, p := ValidatedPipe(4, 8, configuredDefault);
    var r1, n1, s1, p1 := ProducerWaitingFill(p, x, y);
    var r2, n2, s2, w2, d2, p2 := ProducerWaitingPeek(p1, x, y);
    var r3, n3, s3, w3, d3, p3 := ProducerWaitingRead(p2, x, y);
    var r4, n4, w4, p4 := ProducerWaitingTwoPhaseWrite(p3, y, z);
    var r5, n5, s5, w5, d5, p5 := ProducerWaitingTwoPhaseRead(p4, y, z);
    var r6, n6, s6, w6 := ProducerWaitingClose(p5, x, z);
    results, counts := r1 + r2 + r3 + r4 + r5 + r6, n1 + n2 + n3 + n4 + n5 + n6;
    states, woken, data := s1 + s2 + s3 + s5 + s6, w2 + w3 + w4 + w5 + w6, d2 + d3 + d5;
  }

  /** Never READABLE, already WRITABLE; then the two elements fill the pipe. */
  method ProducerWaitingFill(p: PipeState, x: seq<byte>, y: seq<byte>)
    returns (results: seq<MojoResult>, counts: seq<nat>, states: seq<HandleSignalsState>, q: PipeState)
    requires p == Idle(4, 8, 0, []) && |x| == 4 && |y| == 4
    ensures q == Idle(4, 8, 0, x + y)
    ensures results == [FailedPrecondition, AlreadyExists, Ok] && counts == [8] && states == [ProducerOpenState]
  {
    var a := ProducerAddAwakable(p, W, Readable, 12);
    results, states, q := [a.result], [a.state], a.after;
    a := ProducerAddAwakable(q, W, Writable, 34);
    results, q := results + [a.result], a.after;
    assert (x + y)[..8] == x + y;
    var o := ProducerWriteData(q, x + y, 8, true);
    results, counts, q := results + [o.result], [o.numBytes], o.after;
  }

  /** A full pipe is not WRITABLE, and a peek changes nothing. */
  method ProducerWaitingPeek(p: PipeState, x: seq<byte>, y: seq<byte>)
    returns (results: seq<MojoResult>, counts: seq<nat>, states: seq<HandleSignalsState>, woken: seq<Wakeup>, data: seq<byte>, q: PipeState)
    requires p == Idle(4, 8, 0, x + y) && |x| == 4 && |y| == 4
    ensures q == p
    ensures results == [Ok, Ok, Ok] && counts == [4] && states == [ProducerFullState, ProducerFullState]
    ensures woken == [] && data == x
  {
    var a := ProducerAddAwakable(p, W, Writable, 56);
    results, q := [a.result], a.after;
    var r := ProducerRemoveAwakable(q, W);
    states, q := [r.state], r.after;
    assert (x + y)[..4] == x;
    var o := ConsumerReadData(q, 4, true, true);
    results, counts, woken, data, q := results + [o.result], [o.numBytes], o.woken, o.data, o.after;
    a := ProducerAddAwakable(q, W, Writable, 56);
    results, q := results + [a.result], a.after;
    r := ProducerRemoveAwakable(q, W);
    states, q := states + [r.state], r.after;
  }

  /** A copying read makes room and wakes the waiter. */
  method ProducerWaitingRead(p: PipeState, x: seq<byte>, y: seq<byte>)
    returns (results: seq<MojoResult>, counts: seq<nat>, states: seq<HandleSignalsState>, woken: seq<Wakeup>, data: seq<byte>, q: PipeState)
    requires p == Idle(4, 8, 0, x + y) && |x| == 4 && |y| == 4
    ensures q == Idle(4, 8, 4, y)
    ensures results == [Ok, Ok] && counts == [4] && states == [ProducerOpenState]
    ensures woken == [Wakeup(W, Ok, 78)] && data == x
  {
    var a := ProducerAddAwakable(p, W, Writable, 78);
    results, q := [a.result], a.after;
    assert (x + y)[..4] == x && (x + y)[4..] == y;
    var o := ConsumerReadData(q, 4, true, false);
    results, counts, woken, data, q := results + [o.result], [o.numBytes], o.woken, o.data, o.after;
    var r := ProducerRemoveAwakable(q, W);
    states, q := [r.state], r.after;
  }

  /** A two-phase write is offered only the one free element, and fills the pipe. */
  method ProducerWaitingTwoPhaseWrite(p: PipeState, y: seq<byte>, z: seq<byte>)
    returns (results: seq<MojoResult>, counts: seq<nat>, woken: seq<Wakeup>, q: PipeState)
    requires p == Idle(4, 8, 4, y) && |y| == 4 && |z| == 4
    ensures q == Idle(4, 8, 4, y + z)
    ensures results == [Ok, Ok] && counts == [4] && woken == []
  {
    var o := ProducerBeginWriteData(p, 12, false);
    results, counts, woken, q := [o.result], [o.numBytes], o.woken, o.after;
    assert z[..4] == z;
    o := ProducerEndWriteData(q, 4, z);
    results, woken, q := results + [o.result], woken + o.woken, o.after;
  }

  /** A two-phase read of the oldest element wakes the waiter when it ends. */
  method ProducerWaitingTwoPhaseRead(p: PipeState, y: seq<byte>, z: seq<byte>)
    returns (results: seq<MojoResult>, counts: seq<nat>, states: seq<HandleSignalsState>, woken: seq<Wakeup>, data: seq<byte>, q: PipeState)
    requires p == Idle(4, 8, 4, y + z) && |y| == 4 && |z| == 4
    ensures q == Idle(4, 8, 0, z)
    ensures results == [Ok, Ok, Ok] && counts == [4] && states == [ProducerOpenState]
    ensures woken == [Wakeup(W, Ok, 90)] && data == y
  {
    var a := ProducerAddAwakable(p, W, Writable, 90);
    results, q := [a.result], a.after;
    assert (y + z)[..4] == y && (y + z)[4..] == z;
    var o := ConsumerBeginReadData(q, 0, false);
    results, counts, woken, data, q := results + [o.result], [o.numBytes], o.woken, o.data, o.after;
    o := ConsumerEndReadData(q, 4);
    results, woken, q := results + [o.result], woken + o.woken, o.after;
    var r := ProducerRemoveAwakable(q, W);
    states, q := [r.state], r.after;
  }

  /** Closing the consumer leaves a WRITABLE waiter unsatisfiable: PEER_CLOSED is all that is left. */
  method ProducerWaitingClose(p: PipeState, x: seq<byte>, z: seq<byte>)
    returns (results: seq<MojoResult>, counts: seq<nat>, states: seq<HandleSignalsState>, woken: seq<Wakeup>)
    requires p == Idle(4, 8, 0, z) && |x| == 4 && |z| == 4
    ensures results == [Ok, Ok] && counts == [4] && states == [PeerClosedState]
    ensures woken == [Wakeup(W, FailedPrecondition, 12)]
  {
    assert x[..4] == x;
    var o := ProducerWriteData(p, x, 4, false);
    results, counts, woken := [o.result], [o.numBytes], o.woken;
    var a := ProducerAddAwakable(o.after, W, Writable, 12);
    results := results + [a.result];
    var c := ConsumerClose(a.after);
    woken := woken + c.woken;
    var r := ProducerRemoveAwakable(c.after, W);
    states := [r.state];
    c := ProducerClose(r.after);
  }

  /** PeerClosedWaiting: a PEER_CLOSED wait on either end is woken with OK when the other end closes. */
  method PeerClosedWaiting(configuredDefault: nat)
    returns (validation: Result<CreateOptions, MojoResult>, results: seq<MojoResult>, states: seq<HandleSignalsState>, woken: seq<Wakeup>)
    requires configuredDefault > 0
    ensures results == [Ok, Ok] && states == [PeerClosedState, PeerClosedState]
    ensures woken == [Wakeup(W, Ok, 12), Wakeup(W, Ok, 12)]
    ensures validation == Success(CreateOptions(4, 8))
  {
    var p;
    validation, p := ValidatedPipe(4, 8, configuredDefault);
    var a := ProducerAddAwakable(p, W, PeerClosed, 12);
    var c := ConsumerClose(a.after);
    var r := ProducerRemoveAwakable(c.after, W);
    var d := ProducerClose(r.after);
    results, states, woken := [a.result], [r.state], c.woken + d.woken;
    p := Create(validation.value);
    a := ConsumerAddAwakable(p, W, PeerClosed, 12);
    c := ProducerClose(a.after);
    r := ConsumerRemoveAwakable(c.after, W);
    d := ConsumerClose(r.after);
    results, states, woken := results + [a.result], states + [r.state], woken + c.woken + d.woken;
  }

  /**
   * BasicConsumerWaiting, first half, on a pipe of 1000 four-byte elements: the consumer is
   * never WRITABLE, is READABLE while data is there, is woken when data arrives, and once
   * the producer is closed and the data is gone a READABLE wait is refused.
   */
  method BasicConsumerWaiting(configuredDefault: nat, x: seq<byte>, y: seq<byte>, z: seq<byte>)
    returns (validation: Result<CreateOptions, MojoResult>, results: seq<MojoResult>, counts: seq<nat>, states: seq<HandleSignalsState>, woken: seq<Wakeup>, data: seq<byte>)
    requires configuredDefault > 0
    requires |x| == 4 && |y| == 4 && |z| == 4
    ensures results == [FailedPrecondition, Ok, Ok, AlreadyExists, Ok, AlreadyExists, Ok, AlreadyExists, Ok,
                        Ok, Ok, AlreadyExists, Ok, FailedPrecondition]
    ensures counts == [8, 4, 4, 4, 4, 4]
    ensures states == [ConsumerEmptyState, ConsumerEmptyState, ConsumerReadableState, ConsumerReadableState,
                       ConsumerReadableState, ConsumerReadableState,
                       HandleSignalsState(Readable.Union(PeerClosed), Readable.Union(PeerClosed)), PeerClosedState]
    ensures woken == [Wakeup(W, Ok, 90)]
    ensures data == y + y + z
    ensures validation == Success(CreateOptions(4, 4000))
  {
    var p;
    validation, p := ValidatedPipe(4, 4000, configuredDefault);
    var r1, n1, s1, p1 := ConsumerWaitingFill(p, x, y);
    var r2, n2, s2, d2, p2 := ConsumerWaitingTake(p1, x, y);
    var r3, n3, s3, w3, p3 := ConsumerWaitingArrive(p2, z);
    var r4, n4, s4, d4 := ConsumerWaitingDrain(p3, z);
    results, counts, states := r1 + r2 + r3 + r4, n1 + n2 + n3 + n4, s1 + s2 + s3 + s4;
    woken, data := w3, d2 + d4;
  }

  /** An empty consumer refuses a WRITABLE wait, accepts a READABLE one, and is READABLE once written to. */
  method ConsumerWaitingFill(p: PipeState, x: seq<byte>, y: seq<byte>)
    returns (results: seq<MojoResult>, counts: seq<nat>, states: seq<HandleSignalsState>, q: PipeState)
    requires p == Idle(4, 4000, 0, []) && |x| == 4 && |y| == 4
    ensures q == Idle(4, 4000, 0, x + y)
    ensures results == [FailedPrecondition, Ok, Ok, AlreadyExists] && counts == [8]
    ensures states == [ConsumerEmptyState, ConsumerEmptyState, ConsumerReadableState]
  {
    var a := ConsumerAddAwakable(p, W, Writable, 12);
    results, states, q := [a.result], [a.state], a.after;
    a := ConsumerAddAwakable(q, W, Readable, 34);
    results, q := results + [a.result], a.after;
    var r := ConsumerRemoveAwakable(q, W);
    states, q := states + [r.state], r.after;
    assert (x + y)[..8] == x + y;
    var o := ProducerWriteData(q, x + y, 8, true);
    results, counts, q := results + [o.result], [o.numBytes], o.after;
    a := ConsumerAddAwakable(q, W, Readable, 56);
    results, states, q := results + [a.result], states + [a.state], a.after;
  }

  /** Discarding, peeking and reading keep the consumer READABLE while data remains. */
  method ConsumerWaitingTake(p: PipeState, x: seq<byte>, y: seq<byte>)
    returns (results: seq<MojoResult>, counts: seq<nat>, states: seq<HandleSignalsState>, data: seq<byte>, q: PipeState)
    requires p == Idle(4, 4000, 0, x + y) && |x| == 4 && |y| == 4
    ensures q == Idle(4, 4000, 8, [])
    ensures results == [Ok, AlreadyExists, Ok, AlreadyExists, Ok] && counts == [4, 4, 4]
    ensures states == [ConsumerReadableState, ConsumerReadableState] && data == y + y
  {
    assert (x + y)[4..] == y && y[..4] == y && y[4..] == [];
    var o := ConsumerDiscardData(p, 4, true);
    results, counts, q := [o.result], [o.numBytes], o.after;
    var a := ConsumerAddAwakable(q, W, Readable, 78);
    results, states, q := results + [a.result], [a.state], a.after;
    o := ConsumerReadData(q, 4, true, true);
    results, counts, data, q := results + [o.result], counts + [o.numBytes], o.data, o.after;
    a := ConsumerAddAwakable(q, W, Readable, 78);
    results, states, q := results + [a.result], states + [a.state], a.after;
    o := ConsumerReadData(q, 4, true, false);
    results, counts, data, q := results + [o.result], counts + [o.numBytes], data + o.data, o.after;
  }

  /** A waiting consumer is woken with OK when data arrives; then the producer closes. */
  method ConsumerWaitingArrive(p: PipeState, z: seq<byte>)
    returns (results: seq<MojoResult>, counts: seq<nat>, states: seq<HandleSignalsState>, woken: seq<Wakeup>, q: PipeState)
    requires p == Idle(4, 4000, 8, []) && |z| == 4
    ensures q == PipeState(4, 4000, 8, z, false, true, None, None, [], [])
    ensures results == [Ok, Ok] && counts == [4] && states == [ConsumerReadableState]
    ensures woken == [Wakeup(W, Ok, 90)]
  {
    var a := ConsumerAddAwakable(p, W, Readable, 90);
    results, q := [a.result], a.after;
    assert z[..4] == z;
    var o := ProducerWriteData(q, z, 4, true);
    results, counts, woken, q := results + [o.result], [o.numBytes], o.woken, o.after;
    var r := ConsumerRemoveAwakable(q, W);
    states, q := [r.state], r.after;
    var c := ProducerClose(q);
    woken, q := woken + c.woken, c.after;
  }

  /** With the producer closed the consumer stays READABLE until the last element is read. */
  method ConsumerWaitingDrain(p: PipeState, z: seq<byte>)
    returns (results: seq<MojoResult>, counts: seq<nat>, states: seq<HandleSignalsState>, data: seq<byte>)
    requires p == PipeState(4, 4000, 8, z, false, true, None, None, [], []) && |z| == 4
    ensures results == [AlreadyExists, Ok, FailedPrecondition] && counts == [4]
    ensures states == [HandleSignalsState(Readable.Union(PeerClosed), Readable.Union(PeerClosed)), PeerClosedState]
    ensures data == z
  {
    var a := ConsumerAddAwakable(p, W, Readable, 12);
    results, states := [a.result], [a.state];
    assert z[..4] == z;
    var o := ConsumerReadData(a.after, 4, true, false);
    results, counts, data := results + [o.result], [o.numBytes], o.data;
    a := ConsumerAddAwakable(o.after, W, Readable, 34);
    results, states := results + [a.result], states + [a.state];
    var c := ConsumerClose(a.after);
  }

  /**
   * BasicConsumerWaiting, second half: the same with two-phase writes and reads. `lease`
   * is what the producer leaves in the buffer it is offered, its first two elements `x`
   * and `y`; the consumer is woken with FAILED_PRECONDITION when the producer closes an
   * empty pipe.
   */
  method BasicConsumerTwoPhaseWaiting(configuredDefault: nat, x: seq<byte>, y: seq<byte>, lease: seq<byte>)
    returns (validation: Result<CreateOptions, MojoResult>, results: seq<MojoResult>, counts: seq<nat>, states: seq<HandleSignalsState>, woken: seq<Wakeup>, data: seq<byte>)
    requires configuredDefault > 0
    requires |x| == 4 && |y| == 4 && |lease| == 4000 && lease[..8] == x + y
    ensures results == [Ok, Ok, AlreadyExists, Ok, Ok, AlreadyExists, Ok, Ok, Ok]
    ensures counts == [4000, 8, 4]
    ensures states == [ConsumerReadableState, PeerClosedState]
    ensures woken == [Wakeup(W, FailedPrecondition, 56)]
    ensures data == x + y + y
    ensures validation == Success(CreateOptions(4, 4000))
  {
    var p;
    validation, p := ValidatedPipe(4, 4000, configuredDefault);
    var r1, n1, s1, d1, p1 := ConsumerTwoPhaseFill(p, x, y, lease);
    var r2, n2, s2, w2, d2 := ConsumerTwoPhaseDrain(p1, y);
    results, counts, states, woken, data := r1 + r2, n1 + n2, s1 + s2, w2, d1 + d2;
  }

  /** A two-phase write of two elements, then a two-phase read that keeps the second. */
  method ConsumerTwoPhaseFill(p: PipeState, x: seq<byte>, y: seq<byte>, lease: seq<byte>)
    returns (results: seq<MojoResult>, counts: seq<nat>, states: seq<HandleSignalsState>, data: seq<byte>, q: PipeState)
    requires p == Idle(4, 4000, 0, []) && |x| == 4 && |y| == 4 && |lease| == 4000 && lease[..8] == x + y
    ensures q == Idle(4, 4000, 4, y)
    ensures results == [Ok, Ok, AlreadyExists, Ok, Ok] && counts == [4000, 8]
    ensures states == [ConsumerReadableState] && data == x + y
  {
    var o := ProducerBeginWriteData(p, 12, true);
    results, counts, q := [o.result], [o.numBytes], o.after;
    assert q == p.(producerTwoPhase := Some(Lease(0, 4000)));
    o := ProducerEndWriteData(q, 8, lease);
    results, q := results + [o.result], o.after;
    assert q == Idle(4, 4000, 0, x + y);
    var a := ConsumerAddAwakable(q, W, Readable, 12);
    results, states, q := results + [a.result], [a.state], a.after;
    var r, n, d;
    r, n, d, q := ConsumerTwoPhaseKeepSecond(q, x, y);
    results, counts, data := results + r, counts + n, d;
  }

  /** A two-phase read offered both elements that consumes only the first. */
  method ConsumerTwoPhaseKeepSecond(p: PipeState, x: seq<byte>, y: seq<byte>)
    returns (results: seq<MojoResult>, counts: seq<nat>, data: seq<byte>, q: PipeState)
    requires p == Idle(4, 4000, 0, x + y) && |x| == 4 && |y| == 4
    ensures q == Idle(4, 4000, 4, y)
    ensures results == [Ok, Ok] && counts == [8] && data == x + y
  {
    assert (x + y)[..8] == x + y && (x + y)[4..] == y;
    var o := ConsumerBeginReadData(p, 8, true);
    results, counts, data, q := [o.result], [o.numBytes], o.data, o.after;
    assert q == p.(consumerTwoPhase := Some(Lease(0, 8)));
    o := ConsumerEndReadData(q, 4);
    results, q := results + [o.result], o.after;
  }

  /** A two-phase read of what is left; the producer then closes the empty pipe. */
  method ConsumerTwoPhaseDrain(p: PipeState, y: seq<byte>)
    returns (results: seq<MojoResult>, counts: seq<nat>, states: seq<HandleSignalsState>, woken: seq<Wakeup>, data: seq<byte>)
    requires p == Idle(4, 4000, 4, y) && |y| == 4
    ensures results == [AlreadyExists, Ok, Ok, Ok] && counts == [4]
    ensures states == [PeerClosedState] && woken == [Wakeup(W, FailedPrecondition, 56)] && data == y
  {
    var a := ConsumerAddAwakable(p, W, Readable, 34);
    var begun, n, q;
    begun, n, data, q := ConsumerBeginLastElement(a.after, y);
    var ended;
    ended, q := ConsumerEndLastElement(q, y);
    woken := ConsumerWaitForClose(q, 56);
    results, counts, states := [a.result, begun, ended, Ok], [n], [PeerClosedState];
  }

  /** A two-phase read with no length asked is offered the one element there. */
  method ConsumerBeginLastElement(p: PipeState, y: seq<byte>) returns (result: MojoResult, offered: nat, data: seq<byte>, q: PipeState)
    requires p == Idle(4, 4000, 4, y) && |y| == 4
    ensures result == Ok && offered == 4 && data == y
    ensures q == PipeState(4, 4000, 4, y, true, true, None, Some(Lease(4, 4)), [], [])
  {
    var b := ConsumerBeginReadData(p, 12, false);
    result, offered, data, q := b.result, b.numBytes, b.data, b.after;
  }

  /** Ending a two-phase read of the one element there empties the pipe. */
  method ConsumerEndLastElement(p: PipeState, y: seq<byte>) returns (result: MojoResult, q: PipeState)
    requires p == PipeState(4, 4000, 4, y, true, true, None, Some(Lease(4, 4)), [], []) && |y| == 4
    ensures result == Ok && q == Idle(4, 4000, 8, [])
  {
    var e := ConsumerEndReadData(p, 4);
    result, q := e.result, e.after;
  }

  /**
   * On an empty pipe a READABLE wait is registered and the producer's close wakes it with
   * FAILED_PRECONDITION; the consumer is then left PEER_CLOSED alone.
   */
  method ConsumerWaitForClose(p: PipeState, context: nat) returns (woken: seq<Wakeup>)
    requires p.Valid() && p.producerOpen && p.consumerOpen && p.consumerTwoPhase.None? && p.contents == []
    requires p.producerAwakables == [] && p.consumerAwakables == []
    ensures woken == [Wakeup(W, FailedPrecondition, context)]
  {
    var a := ConsumerAddAwakable(p, W, Readable, context);
    assert a.result == Ok;
    var c := ProducerClose(a.after);
    woken := c.woken;
    var r := ConsumerRemoveAwakable(c.after, W);
    assert r.state == PeerClosedState;
    c := ConsumerClose(r.after);
  }

  /**
   * BasicTwoPhaseWaiting, on a pipe of 1000 four-byte elements: during a two-phase write
   * the producer is not WRITABLE and an uncommitted write does not make the consumer
   * READABLE; during a two-phase read the consumer is not READABLE. No wait registered
   * here is woken. `lease` is what the producer leaves in the first buffer it is offered.
   */
  method BasicTwoPhaseWaiting(configuredDefault: nat, x: seq<byte>, lease: seq<byte>, second: seq<byte>)
    returns (validation: Result<CreateOptions, MojoResult>, results: seq<MojoResult>, counts: seq<nat>, states: seq<HandleSignalsState>, woken: seq<Wakeup>, data: seq<byte>)
    requires configuredDefault > 0
    requires |x| == 4 && |lease| == 4000 && lease[..4] == x && |second| == 3996
    ensures results == [AlreadyExists, Ok, Ok, Ok, Ok, AlreadyExists, AlreadyExists, Ok, AlreadyExists, Ok,
                        Ok, AlreadyExists, Ok, Ok, AlreadyExists]
    ensures counts == [4000, 3996, 4]
    ensures states == [ProducerOpenState, ProducerFullState, ConsumerEmptyState, ProducerOpenState, ConsumerReadableState,
                       ConsumerReadableState, ProducerOpenState, ConsumerEmptyState, ConsumerReadableState]
    ensures woken == [] && data == x
    ensures validation == Success(CreateOptions(4, 4000))
  {
    var p;
    validation, p := ValidatedPipe(4, 4000, configuredDefault);
    var a := ProducerAddAwakable(p, W, Writable, 0);
    var begun, offered, q := WaitingBeginFirstWrite(a.after);
    results, counts, states := [a.result, begun], [offered], [a.state];
    var r, n, s, w;
    r, s := WaitingWhileWriting(q);
    results, states := results + r, states + s;
    var ended;
    ended, w, q := WaitingEndFirstWrite(q, x, lease);
    results, woken := results + [ended], w;
    r, n, s, q := WaitingSecondWrite(q, x, second);
    results, counts, states := results + r, counts + n, states + s;
    r, n, s, data, q := WaitingTwoPhaseRead(q, x);
    results, counts, states := results + r, counts + n, states + s;
  }

  /** A two-phase write with no length asked is offered the whole empty buffer. */
  method WaitingBeginFirstWrite(p: PipeState) returns (result: MojoResult, offered: nat, q: PipeState)
    requires p == Idle(4, 4000, 0, [])
    ensures result == Ok && offered == 4000
    ensures q == PipeState(4, 4000, 0, [], true, true, Some(Lease(0, 4000)), None, [], [])
  {
    var o := ProducerBeginWriteData(p, 4, false);
    result, offered, q := o.result, o.numBytes, o.after;
  }

  /** During a two-phase write neither end satisfies a wait, and both can still be satisfied. */
  method WaitingWhileWriting(p: PipeState) returns (results: seq<MojoResult>, states: seq<HandleSignalsState>)
    requires p == PipeState(4, 4000, 0, [], true, true, Some(Lease(0, 4000)), None, [], [])
    ensures results == [Ok, Ok] && states == [ProducerFullState, ConsumerEmptyState]
  {
    var a := ProducerAddAwakable(p, W, Writable, 1);
    var r := ProducerRemoveAwakable(a.after, W);
    var b := ConsumerAddAwakable(r.after, W, Readable, 2);
    var t := ConsumerRemoveAwakable(b.after, W);
    results, states := [a.result, b.result], [r.state, t.state];
  }

  /** Committing one element of the first lease. */
  method WaitingEndFirstWrite(p: PipeState, x: seq<byte>, lease: seq<byte>) returns (result: MojoResult, woken: seq<Wakeup>, q: PipeState)
    requires p == PipeState(4, 4000, 0, [], true, true, Some(Lease(0, 4000)), None, [], [])
    requires |x| == 4 && |lease| == 4000 && lease[..4] == x
    ensures result == Ok && woken == [] && q == Idle(4, 4000, 0, x)
  {
    var o := ProducerEndWriteData(p, 4, lease);
    result, woken, q := o.result, o.woken, o.after;
  }

  /** Both ends are satisfied; a second two-phase write is offered the rest, and commits nothing. */
  method WaitingSecondWrite(p: PipeState, x: seq<byte>, second: seq<byte>)
    returns (results: seq<MojoResult>, counts: seq<nat>, states: seq<HandleSignalsState>, q: PipeState)
    requires p == Idle(4, 4000, 0, x) && |x| == 4 && |second| == 3996
    ensures results == [AlreadyExists, AlreadyExists, Ok, AlreadyExists, Ok] && counts == [3996]
    ensures states == [ProducerOpenState, ConsumerReadableState, ConsumerReadableState]
    ensures q == p
  {
    var a := ProducerAddAwakable(p, W, Writable, 3);
    var b := ConsumerAddAwakable(a.after, W, Readable, 4);
    results, states := [a.result, b.result], [a.state, b.state];
    var begun, offered, leased := WaitingBeginSecondWrite(b.after, x);
    var c := ConsumerAddAwakable(leased, W, Readable, 5);
    var ended;
    ended, q := WaitingEndEmptyWrite(c.after, x, second);
    results, counts, states := results + [begun, c.result, ended], [offered], states + [c.state];
  }

  /** The second two-phase write is offered the 999 free elements after the first. */
  method WaitingBeginSecondWrite(p: PipeState, x: seq<byte>) returns (result: MojoResult, offered: nat, q: PipeState)
    requires p == Idle(4, 4000, 0, x) && |x| == 4
    ensures result == Ok && offered == 3996
    ensures q == PipeState(4, 4000, 0, x, true, true, Some(Lease(4, 3996)), None, [], [])
  {
    var o := ProducerBeginWriteData(p, 4, false);
    result, offered, q := o.result, o.numBytes, o.after;
  }

  /** Ending a two-phase write with nothing written is a success that commits nothing. */
  method WaitingEndEmptyWrite(p: PipeState, x: seq<byte>, second: seq<byte>) returns (result: MojoResult, q: PipeState)
    requires p == PipeState(4, 4000, 0, x, true, true, Some(Lease(4, 3996)), None, [], []) && |x| == 4 && |second| == 3996
    ensures result == Ok && q == Idle(4, 4000, 0, x)
  {
    var o := ProducerEndWriteData(p, 0, second);
    result, q := o.result, o.after;
  }

  /**
   * During a two-phase read the consumer is not READABLE (but can become so) while the
   * producer stays WRITABLE; ending it with nothing read makes the consumer READABLE again.
   */
  method WaitingTwoPhaseRead(p: PipeState, x: seq<byte>)
    returns (results: seq<MojoResult>, counts: seq<nat>, states: seq<HandleSignalsState>, data: seq<byte>, q: PipeState)
    requires p == Idle(4, 4000, 0, x) && |x| == 4
    ensures results == [Ok, AlreadyExists, Ok, Ok, AlreadyExists] && counts == [4]
    ensures states == [ProducerOpenState, ConsumerEmptyState, ConsumerReadableState]
    ensures data == x
  {
    var begun, offered, leased;
    begun, offered, data, leased := WaitingBeginRead(p, x);
    var a := ProducerAddAwakable(leased, W, Writable, 6);
    var b := ConsumerAddAwakable(a.after, W, Readable, 7);
    var r := ConsumerRemoveAwakable(b.after, W);
    var ended;
    ended, q := WaitingEndEmptyRead(r.after, x);
    var c := ConsumerAddAwakable(q, W, Readable, 8);
    results, counts, states := [begun, a.result, b.result, ended, c.result], [offered], [a.state, r.state, c.state];
    var d := ProducerClose(c.after);
    var e := ConsumerClose(d.after);
    q := e.after;
  }

  /** A two-phase read with no length asked is offered the one element there. */
  method WaitingBeginRead(p: PipeState, x: seq<byte>) returns (result: MojoResult, offered: nat, data: seq<byte>, q: PipeState)
    requires p == Idle(4, 4000, 0, x) && |x| == 4
    ensures result == Ok && offered == 4 && data == x
    ensures q == PipeState(4, 4000, 0, x, true, true, None, Some(Lease(0, 4)), [], [])
  {
    var o := ConsumerBeginReadData(p, 4, false);
    result, offered, data, q := o.result, o.numBytes, o.data, o.after;
  }

  /** Ending a two-phase read with nothing read is a success that consumes nothing. */
  method WaitingEndEmptyRead(p: PipeState, x: seq<byte>) returns (result: MojoResult, q: PipeState)
    requires p == PipeState(4, 4000, 0, x, true, true, None, Some(Lease(0, 4)), [], []) && |x| == 4
    ensures result == Ok && q == Idle(4, 4000, 0, x)
  {
    var o := ConsumerEndReadData(p, 0);
    result, q := o.result, o.after;
  }

  /**
   * AllOrNone, on a pipe of ten four-byte elements: an all-or-none write that does not fit,
   * and an all-or-none read or discard of more than is there, fail with OUT_OF_RANGE and
   * change nothing; once the producer is closed they fail with FAILED_PRECONDITION. The
   * caller's buffers `s0` … `s4` hold 100 elements each. Before each of its five copying
   * reads the caller's read buffer holds `f` (the test fills it with 0xab); `buffers` is what
   * it holds after each: a refused read leaves it untouched, a read overwrites only the
   * bytes it hands out.
   */
  method AllOrNone(configuredDefault: nat, s0: seq<byte>, s1: seq<byte>, s2: seq<byte>, s3: seq<byte>, s4: seq<byte>, f: seq<byte>)
    returns (validation: Result<CreateOptions, MojoResult>, results: seq<MojoResult>, counts: seq<nat>, queried: seq<nat>,
             data: seq<byte>, buffers: seq<seq<byte>>)
    requires configuredDefault > 0
    requires |s0| == 400 && |s1| == 400 && |s2| == 400 && |s3| == 400 && |s4| == 400 && |f| == 400
    ensures results == [OutOfRange, Ok, OutOfRange, OutOfRange, OutOfRange, Ok, Ok, Ok, OutOfRange, OutOfRange,
                        Ok, FailedPrecondition, FailedPrecondition, Ok, Ok]
    ensures counts == [20, 8, 12, 20, 8, 8, 4] && queried == [0, 20, 40, 12, 0]
    ensures data == s1[..20] + s4[..8]
    ensures buffers == [f, s1[..20] + f[20..], f, f, s4[..8] + f[8..]]
    ensures validation == Success(CreateOptions(4, 40))
  {
    var p;
    validation, p := ValidatedPipe(4, 40, configuredDefault);
    var r1, n1, q1, p1 := AllOrNoneFirstWrite(p, s0, s1);
    var r2, q2, b2, p2 := AllOrNoneRefused(p1, s1, s2, f);
    var r3, n3, q3, p3 := AllOrNoneFill(p2, s1, s3, s4);
    var r4, n4, d4, b4, p4 := AllOrNoneReadFront(p3, s1, s3, s4, f);
    var r5, n5, q5, p5 := AllOrNoneDiscardAndClose(p4, s3, s4);
    var r6, n6, q6, d6, b6 := AllOrNoneAfterClose(p5, s4, f);
    results, counts := r1 + r2 + r3 + r4 + r5 + r6, n1 + n3 + n4 + n5 + n6;
    queried, data, buffers := q1 + q2 + q3 + q5 + q6, d4 + d6, b2 + b4 + b6;
  }

  /** Twenty elements do not fit in ten; five do. */
  method AllOrNoneFirstWrite(p: PipeState, s0: seq<byte>, s1: seq<byte>)
    returns (results: seq<MojoResult>, counts: seq<nat>, queried: seq<nat>, q: PipeState)
    requires p == Idle(4, 40, 0, []) && |s0| == 400 && |s1| == 400
    ensures results == [OutOfRange, Ok] && counts == [20] && queried == [0]
    ensures q == Idle(4, 40, 0, s1[..20])
  {
    var o := ProducerWriteData(p, s0, 80, true);
    results, q := [o.result], o.after;
    queried := [ConsumerQueryData(q)];
    assert [] + s1[..20] == s1[..20];
    o := ProducerWriteData(q, s1, 20, true);
    results, counts, q := results + [o.result], [o.numBytes], o.after;
  }

  /** With five elements in, six more do not fit and eleven cannot be read or discarded. */
  method AllOrNoneRefused(p: PipeState, s1: seq<byte>, s2: seq<byte>, f: seq<byte>)
    returns (results: seq<MojoResult>, queried: seq<nat>, buffers: seq<seq<byte>>, q: PipeState)
    requires |s1| == 400 && |s2| == 400 && |f| == 400 && p == Idle(4, 40, 0, s1[..20])
    ensures results == [OutOfRange, OutOfRange, OutOfRange] && queried == [20] && buffers == [f] && q == p
  {
    queried := [ConsumerQueryData(p)];
    var o := ProducerWriteData(p, s2, 24, true);
    results := [o.result];
    o := ConsumerReadData(o.after, 44, true, false);
    results, buffers := results + [o.result], [AfterRead(f, o.data)];
    o := ConsumerDiscardData(o.after, 44, true);
    results, q := results + [o.result], o.after;
  }

  /** Two and then three more elements fill the pipe exactly. */
  method AllOrNoneFill(p: PipeState, s1: seq<byte>, s3: seq<byte>, s4: seq<byte>)
    returns (results: seq<MojoResult>, counts: seq<nat>, queried: seq<nat>, q: PipeState)
    requires |s1| == 400 && |s3| == 400 && |s4| == 400 && p == Idle(4, 40, 0, s1[..20])
    ensures results == [Ok, Ok] && counts == [8, 12] && queried == [40]
    ensures q == Idle(4, 40, 0, s1[..20] + s3[..8] + s4[..12])
  {
    var o := ProducerWriteData(p, s3, 8, true);
    results, counts, q := [o.result], [o.numBytes], o.after;
    o := ProducerWriteData(q, s4, 12, true);
    results, counts, q := results + [o.result], counts + [o.numBytes], o.after;
    queried := [ConsumerQueryData(q)];
  }

  /** Reading the first five elements; six of the remaining five cannot be read or discarded. */
  method AllOrNoneReadFront(p: PipeState, s1: seq<byte>, s3: seq<byte>, s4: seq<byte>, f: seq<byte>)
    returns (results: seq<MojoResult>, counts: seq<nat>, data: seq<byte>, buffers: seq<seq<byte>>, q: PipeState)
    requires |s1| == 400 && |s3| == 400 && |s4| == 400 && |f| == 400
    requires p == Idle(4, 40, 0, s1[..20] + s3[..8] + s4[..12])
    ensures results == [Ok, OutOfRange, OutOfRange] && counts == [20] && data == s1[..20]
    ensures buffers == [s1[..20] + f[20..], f]
    ensures q == Idle(4, 40, 20, s3[..8] + s4[..12])
  {
    assert (s1[..20] + s3[..8] + s4[..12])[..20] == s1[..20];
    assert (s1[..20] + s3[..8] + s4[..12])[20..] == s3[..8] + s4[..12];
    var o := ConsumerReadData(p, 20, true, false);
    results, counts, data, q := [o.result], [o.numBytes], o.data, o.after;
    buffers := [AfterRead(f, o.data)];
    o := ConsumerReadData(q, 24, true, false);
    results, buffers := results + [o.result], buffers + [AfterRead(f, o.data)];
    o := ConsumerDiscardData(q, 24, true);
    results, q := results + [o.result], o.after;
  }

  /** Discarding two elements leaves three; then the producer closes. */
  method AllOrNoneDiscardAndClose(p: PipeState, s3: seq<byte>, s4: seq<byte>)
    returns (results: seq<MojoResult>, counts: seq<nat>, queried: seq<nat>, q: PipeState)
    requires |s3| == 400 && |s4| == 400 && p == Idle(4, 40, 20, s3[..8] + s4[..12])
    ensures results == [Ok] && counts == [8] && queried == [12]
    ensures q == PipeState(4, 40, 28, s4[..12], false, true, None, None, [], [])
  {
    assert (s3[..8] + s4[..12])[8..] == s4[..12];
    var o := ConsumerDiscardData(p, 8, true);
    results, counts, q := [o.result], [o.numBytes], o.after;
    queried := [ConsumerQueryData(q)];
    var c := ProducerClose(q);
    q := c.after;
  }

  /** With the producer closed, four of three elements is FAILED_PRECONDITION; two and then one are taken. */
  method AllOrNoneAfterClose(p: PipeState, s4: seq<byte>, f: seq<byte>)
    returns (results: seq<MojoResult>, counts: seq<nat>, queried: seq<nat>, data: seq<byte>, buffers: seq<seq<byte>>)
    requires |s4| == 400 && |f| == 400 && p == PipeState(4, 40, 28, s4[..12], false, true, None, None, [], [])
    ensures results == [FailedPrecondition, FailedPrecondition, Ok, Ok] && counts == [8, 4] && queried == [0]
    ensures data == s4[..8] && buffers == [f, s4[..8] + f[8..]]
  {
    var o := ConsumerReadData(p, 16, true, false);
    results, buffers := [o.result], [AfterRead(f, o.data)];
    o := ConsumerDiscardData(o.after, 16, true);
    results := results + [o.result];
    var r, n, b, q;
    r, n, queried, data, b, q := AllOrNoneDrainClosed(o.after, s4, f);
    results, counts, buffers := results + r, n, buffers + b;
  }

  /** Reading two of the last three elements and discarding the third empties the pipe. */
  method AllOrNoneDrainClosed(p: PipeState, s4: seq<byte>, f: seq<byte>)
    returns (results: seq<MojoResult>, counts: seq<nat>, queried: seq<nat>, data: seq<byte>, buffers: seq<seq<byte>>, q: PipeState)
    requires |s4| == 400 && |f| == 400 && p == PipeState(4, 40, 28, s4[..12], false, true, None, None, [], [])
    ensures results == [Ok, Ok] && counts == [8, 4] && queried == [0] && data == s4[..8]
    ensures buffers == [s4[..8] + f[8..]]
    ensures q == PipeState(4, 40, 0, [], false, false, None, None, [], [])
  {
    assert s4[..12][..8] == s4[..8] && s4[..12][8..] == s4[8..12];
    var o := ConsumerReadData(p, 8, true, false);
    results, counts, data, q := [o.result], [o.numBytes], o.data, o.after;
    buffers := [AfterRead(f, o.data)];
    o := ConsumerDiscardData(q, 4, true);
    results, counts, q := results + [o.result], counts + [o.numBytes], o.after;
    queried := [ConsumerQueryData(q)];
    var c := ConsumerClose(q);
    q := c.after;
  }

  /**
   * TwoPhaseAllOrNone, on a pipe of ten four-byte elements: an all-or-none two-phase
   * write or read is refused with INVALID_ARGUMENT for a partial element and OUT_OF_RANGE
   * when the requested length is not available in one contiguous run, even where it
   * would be available around the end of the buffer; once the producer is closed the
   * refusal is FAILED_PRECONDITION. `lease` is what the producer leaves in the buffer it is
   * offered and `b` is a caller's buffer of 100 elements.
   */
  method TwoPhaseAllOrNone(configuredDefault: nat, lease: seq<byte>, b: seq<byte>)
    returns (validation: Result<CreateOptions, MojoResult>, results: seq<MojoResult>, counts: seq<nat>, queried: seq<nat>, data: seq<byte>)
    requires configuredDefault > 0
    requires |lease| == 40 && |b| == 400
    ensures results == [OutOfRange, InvalidArgument, OutOfRange, Ok, Ok, InvalidArgument, Ok, Ok,
                        OutOfRange, Ok, OutOfRange, Ok, Ok, FailedPrecondition]
    ensures counts == [40, 20, 24, 36] && queried == [16, 40]
    ensures data == lease[..20] + lease[4..20] + b[..20]
    ensures validation == Success(CreateOptions(4, 40))
  {
    var p;
    validation, p := ValidatedPipe(4, 40, configuredDefault);
    var r1, q1 := TwoPhaseRefusedOnEmpty(p);
    var r2, n2, q := TwoPhaseBeginWholeBuffer(q1);
    var r3, q3 := TwoPhaseCommitFive(q, lease);
    var r4, n4, d4, q4 := TwoPhaseBeginReadFive(q3, lease);
    var r5, n5, q5 := TwoPhaseConsumeOne(q4, lease);
    var r6, n6, n6b, q6 := TwoPhaseWrapWrite(q5, lease, b);
    var r7, q7 := TwoPhaseRefuseWrappedRead(q6, lease, b);
    var r8, n8, d8, q8 := TwoPhaseReadClosedRun(q7, lease, b);
    var r9 := TwoPhaseEndClosedRun(q8, lease, b);
    results := r1 + [r2, r3] + r4 + [r5] + r6 + [r7] + [r8] + r9;
    counts, queried, data := [n2, n4, n6, n8], [n5, n6b], d4 + d8;
  }

  /** On an empty pipe: twenty elements do not fit, a partial element is refused, and nothing can be read. */
  method TwoPhaseRefusedOnEmpty(p: PipeState) returns (results: seq<MojoResult>, q: PipeState)
    requires p == Idle(4, 40, 0, [])
    ensures results == [OutOfRange, InvalidArgument, OutOfRange] && q == p
  {
    var o := ProducerBeginWriteData(p, 80, true);
    assert o.result == OutOfRange && o.after == p;
    var o2 := ProducerBeginWriteData(p, 1, true);
    assert o2.result == InvalidArgument && o2.after == p;
    var o3 := ConsumerBeginReadData(p, 80, true);
    results, q := [o.result, o2.result, o3.result], o3.after;
  }

  /** Five elements asked all-or-none: the whole buffer is offered. */
  method TwoPhaseBeginWholeBuffer(p: PipeState) returns (result: MojoResult, offered: nat, q: PipeState)
    requires p == Idle(4, 40, 0, [])
    ensures result == Ok && offered == 40
    ensures q == PipeState(4, 40, 0, [], true, true, Some(Lease(0, 40)), None, [], [])
  {
    var o := ProducerBeginWriteData(p, 20, true);
    result, offered, q := o.result, o.numBytes, o.after;
  }

  /** Committing five elements of the lease. */
  method TwoPhaseCommitFive(p: PipeState, lease: seq<byte>) returns (result: MojoResult, q: PipeState)
    requires |lease| == 40 && p == PipeState(4, 40, 0, [], true, true, Some(Lease(0, 40)), None, [], [])
    ensures result == Ok && q == Idle(4, 40, 0, lease[..20])
  {
    assert [] + lease[..20] == lease[..20];
    var o := ProducerEndWriteData(p, 20, lease);
    result, q := o.result, o.after;
  }

  /** A partial element is refused; one element asked all-or-none is offered all five. */
  method TwoPhaseBeginReadFive(p: PipeState, lease: seq<byte>)
    returns (results: seq<MojoResult>, offered: nat, data: seq<byte>, q: PipeState)
    requires |lease| == 40 && p == Idle(4, 40, 0, lease[..20])
    ensures results == [InvalidArgument, Ok] && offered == 20 && data == lease[..20]
    ensures q == PipeState(4, 40, 0, lease[..20], true, true, None, Some(Lease(0, 20)), [], [])
  {
    var o := ConsumerBeginReadData(p, 1, true);
    var o2 := ConsumerBeginReadData(o.after, 4, true);
    results, offered, data, q := [o.result, o2.result], o2.numBytes, o2.data, o2.after;
  }

  /** Consuming one of the five elements leaves four. */
  method TwoPhaseConsumeOne(p: PipeState, lease: seq<byte>) returns (result: MojoResult, queried: nat, q: PipeState)
    requires |lease| == 40 && p == PipeState(4, 40, 0, lease[..20], true, true, None, Some(Lease(0, 20)), [], [])
    ensures result == Ok && queried == 16 && q == Idle(4, 40, 4, lease[4..20])
  {
    assert lease[..20][4..] == lease[4..20];
    var o := ConsumerEndReadData(p, 4);
    result, q := o.result, o.after;
    queried := ConsumerQueryData(q);
  }

  /**
   * Six elements do not fit in the five-element run to the end of the buffer, so a
   * two-phase write of them is refused, but a copying write of them wraps around.
   */
  method TwoPhaseWrapWrite(p: PipeState, lease: seq<byte>, b: seq<byte>)
    returns (results: seq<MojoResult>, written: nat, queried: nat, q: PipeState)
    requires |lease| == 40 && |b| == 400 && p == Idle(4, 40, 4, lease[4..20])
    ensures results == [OutOfRange, Ok] && written == 24 && queried == 40
    ensures q == Idle(4, 40, 4, lease[4..20] + b[..24])
  {
    var o := ProducerBeginWriteData(p, 24, true);
    var o2 := ProducerWriteData(o.after, b, 24, true);
    results, written, q := [o.result, o2.result], o2.numBytes, o2.after;
    queried := ConsumerQueryData(q);
  }

  /** Ten elements are there but only nine are contiguous; then the producer closes. */
  method TwoPhaseRefuseWrappedRead(p: PipeState, lease: seq<byte>, b: seq<byte>) returns (result: MojoResult, q: PipeState)
    requires |lease| == 40 && |b| == 400 && p == Idle(4, 40, 4, lease[4..20] + b[..24])
    ensures result == OutOfRange
    ensures q == PipeState(4, 40, 4, lease[4..20] + b[..24], false, true, None, None, [], [])
  {
    var o := ConsumerBeginReadData(p, 40, true);
    var c := ProducerClose(o.after);
    result, q := o.result, c.after;
  }

  /** Nine elements asked all-or-none are the contiguous run up to the end of the buffer. */
  method TwoPhaseReadClosedRun(p: PipeState, lease: seq<byte>, b: seq<byte>)
    returns (result: MojoResult, offered: nat, data: seq<byte>, q: PipeState)
    requires |lease| == 40 && |b| == 400 && p == PipeState(4, 40, 4, lease[4..20] + b[..24], false, true, None, None, [], [])
    ensures result == Ok && offered == 36 && data == lease[4..20] + b[..20]
    ensures q == p.(consumerTwoPhase := Some(Lease(4, 36)))
  {
    assert (lease[4..20] + b[..24])[..36] == lease[4..20] + b[..20];
    var o := ConsumerBeginReadData(p, 36, true);
    result, offered, data, q := o.result, o.numBytes, o.data, o.after;
  }

  /** Consuming the nine leaves one element, so two asked all-or-none are refused for good. */
  method TwoPhaseEndClosedRun(p: PipeState, lease: seq<byte>, b: seq<byte>) returns (results: seq<MojoResult>)
    requires |lease| == 40 && |b| == 400
    requires p == PipeState(4, 40, 4, lease[4..20] + b[..24], false, true, None, Some(Lease(4, 36)), [], [])
    ensures results == [Ok, FailedPrecondition]
  {
    assert (lease[4..20] + b[..24])[36..] == b[20..24];
    var o := ConsumerEndReadData(p, 36);
    assert o.after == PipeState(4, 40, 0, b[20..24], false, true, None, None, [], []);
    var o2 := ConsumerBeginReadData(o.after, 8, true);
    results := [o.result, o2.result];
    var c := ConsumerClose(o.after);
  }

  /**
   * WrapAround, on a pipe of 100 one-byte elements: copying writes and reads move as much
   * as they can, wrapping around the end of the buffer, while two-phase writes and reads
   * are offered only the contiguous run. `t` is the 1000-byte test data and `lease` what
   * the producer leaves in the buffer it is offered.
   */
  method WrapAround(configuredDefault: nat, t: seq<byte>, lease: seq<byte>)
    returns (validation: Result<CreateOptions, MojoResult>, counts: seq<nat>, data: seq<byte>)
    requires configuredDefault > 0
    requires |t| == 1000 && |lease| == 80
    ensures counts == [20, 10, 80, 90, 90, 100]
    ensures data == t[..10] + t[10..110]
    ensures validation == Success(CreateOptions(1, 100))
  {
    var p;
    validation, p := ValidatedPipe(1, 100, configuredDefault);
    var n1, d1, q1 := WrapAroundStart(p, t);
    var offered, q2 := WrapAroundBeginWrite(q1, t);
    var q3 := WrapAroundEndEmptyWrite(q2, t, lease);
    var n4, q4 := WrapAroundWriteAll(q3, t);
    var n5, q5 := WrapAroundBeginRead(q4, t);
    var q6 := WrapAroundEndEmptyRead(q5, t);
    var n7, d7 := WrapAroundReadAll(q6, t);
    counts, data := n1 + [offered, n4, n5, n7], d1 + d7;
  }

  /** Twenty bytes written and ten read back. */
  method WrapAroundStart(p: PipeState, t: seq<byte>) returns (counts: seq<nat>, data: seq<byte>, q: PipeState)
    requires |t| == 1000 && p == Idle(1, 100, 0, [])
    ensures counts == [20, 10] && data == t[..10] && q == Idle(1, 100, 10, t[10..20])
  {
    assert [] + t[..20] == t[..20] && t[..20][..10] == t[..10] && t[..20][10..] == t[10..20];
    var o := ProducerWriteData(p, t, 20, false);
    assert o.result == Ok && o.after == Idle(1, 100, 0, t[..20]);
    var o2 := ConsumerReadData(o.after, 10, false, false);
    counts, data, q := [o.numBytes, o2.numBytes], o2.data, o2.after;
  }

  /** The two-phase write is offered only the 80 bytes up to the end of the buffer. */
  method WrapAroundBeginWrite(p: PipeState, t: seq<byte>) returns (offered: nat, q: PipeState)
    requires |t| == 1000 && p == Idle(1, 100, 10, t[10..20])
    ensures offered == 80 && q == PipeState(1, 100, 10, t[10..20], true, true, Some(Lease(20, 80)), None, [], [])
  {
    var o := ProducerBeginWriteData(p, 0, false);
    offered, q := o.numBytes, o.after;
  }

  /** ... and ends it having written nothing. */
  method WrapAroundEndEmptyWrite(p: PipeState, t: seq<byte>, lease: seq<byte>) returns (q: PipeState)
    requires |t| == 1000 && |lease| == 80
    requires p == PipeState(1, 100, 10, t[10..20], true, true, Some(Lease(20, 80)), None, [], [])
    ensures q == Idle(1, 100, 10, t[10..20])
  {
    var o := ProducerEndWriteData(p, 0, lease);
    assert o.result == Ok;
    q := o.after;
  }

  /** Asked for 200 bytes, a copying write fills the 90 free bytes, wrapping around. */
  method WrapAroundWriteAll(p: PipeState, t: seq<byte>) returns (written: nat, q: PipeState)
    requires |t| == 1000 && p == Idle(1, 100, 10, t[10..20])
    ensures written == 90 && q == Idle(1, 100, 10, t[10..110])
  {
    assert t[10..20] + t[20..][..90] == t[10..110];
    var o := ProducerWriteData(p, t[20..], 200, false);
    written, q := o.numBytes, o.after;
  }

  /** The two-phase read is offered only the 90 bytes up to the end of the buffer. */
  method WrapAroundBeginRead(p: PipeState, t: seq<byte>) returns (offered: nat, q: PipeState)
    requires |t| == 1000 && p == Idle(1, 100, 10, t[10..110])
    ensures offered == 90 && q == PipeState(1, 100, 10, t[10..110], true, true, None, Some(Lease(10, 90)), [], [])
  {
    var o := ConsumerBeginReadData(p, 0, false);
    offered, q := o.numBytes, o.after;
  }

  /** ... and ends it having read nothing. */
  method WrapAroundEndEmptyRead(p: PipeState, t: seq<byte>) returns (q: PipeState)
    requires |t| == 1000 && p == PipeState(1, 100, 10, t[10..110], true, true, None, Some(Lease(10, 90)), [], [])
    ensures q == Idle(1, 100, 10, t[10..110])
  {
    var o := ConsumerEndReadData(p, 0);
    assert o.result == Ok;
    q := o.after;
  }

  /** Asked for 1000 bytes, a copying read takes all 100, wrapping around. */
  method WrapAroundReadAll(p: PipeState, t: seq<byte>) returns (read: nat, data: seq<byte>)
    requires |t| == 1000 && p == Idle(1, 100, 10, t[10..110])
    ensures read == 100 && data == t[10..110]
  {
    var o := ConsumerReadData(p, 1000, false, false);
    read, data := o.numBytes, o.data;
    var c := ProducerClose(o.after);
    var d := ConsumerClose(c.after);
  }

  /**
   * CloseWriteRead, first block, on a pipe of 1000 one-byte elements holding `k` twice
   * (`k` is the twelve bytes of the test string): closing the producer cancels its
   * two-phase write, while the consumer can finish its two-phase read and start another.
   */
  method CloseProducerFirst(configuredDefault: nat, k: seq<byte>)
    returns (validation: Result<CreateOptions, MojoResult>, results: seq<MojoResult>, counts: seq<nat>, data: seq<byte>)
    requires configuredDefault > 0
    requires |k| == 12
    ensures results == [Ok, Ok, Ok, Ok, Ok, Ok]
    ensures counts == [12, 12, 976, 24, 12]
    ensures data == k + k + k
    ensures validation == Success(CreateOptions(1, 1000))
  {
    var p;
    validation, p := ValidatedPipe(1, 1000, configuredDefault);
    var r1, n1, q1 := WriteTwice(p, k);
    var r2, offered, q2 := CloseFirstBeginWrite(q1, k);
    var r3, n3, d3, q3 := CloseFirstBeginRead(q2, k);
    var c := ProducerClose(q3);
    var ended, q5 := CloseFirstEndRead(c.after, k);
    var r6, n6, d6 := CloseFirstReadRest(q5, k);
    results, counts, data := r1 + [r2, r3, ended, r6], n1 + [offered, n3, n6], d3 + d6;
  }

  /** Writing `k` twice. */
  method WriteTwice(p: PipeState, k: seq<byte>) returns (results: seq<MojoResult>, counts: seq<nat>, q: PipeState)
    requires |k| == 12 && p == Idle(1, 1000, 0, [])
    ensures results == [Ok, Ok] && counts == [12, 12] && q == Idle(1, 1000, 0, k + k)
  {
    assert k[..12] == k && [] + k == k;
    var o := ProducerWriteData(p, k, 12, false);
    var o2 := ProducerWriteData(o.after, k, 12, false);
    results, counts, q := [o.result, o2.result], [o.numBytes, o2.numBytes], o2.after;
  }

  /** A two-phase write is offered the free run after the 24 bytes. */
  method CloseFirstBeginWrite(p: PipeState, k: seq<byte>) returns (result: MojoResult, offered: nat, q: PipeState)
    requires |k| == 12 && p == Idle(1, 1000, 0, k + k)
    ensures result == Ok && offered == 976
    ensures q == PipeState(1, 1000, 0, k + k, true, true, Some(Lease(24, 976)), None, [], [])
  {
    var o := ProducerBeginWriteData(p, 0, false);
    result, offered, q := o.result, o.numBytes, o.after;
  }

  /** Meanwhile a two-phase read is offered both copies of `k`. */
  method CloseFirstBeginRead(p: PipeState, k: seq<byte>) returns (result: MojoResult, offered: nat, data: seq<byte>, q: PipeState)
    requires |k| == 12 && p == PipeState(1, 1000, 0, k + k, true, true, Some(Lease(24, 976)), None, [], [])
    ensures result == Ok && offered == 24 && data == k + k
    ensures q == PipeState(1, 1000, 0, k + k, true, true, Some(Lease(24, 976)), Some(Lease(0, 24)), [], [])
  {
    var o := ConsumerBeginReadData(p, 0, false);
    result, offered, data, q := o.result, o.numBytes, o.data, o.after;
  }

  /** With the producer closed, the two-phase read consumes the first copy. */
  method CloseFirstEndRead(p: PipeState, k: seq<byte>) returns (result: MojoResult, q: PipeState)
    requires |k| == 12 && p == PipeState(1, 1000, 0, k + k, false, true, None, Some(Lease(0, 24)), [], [])
    ensures result == Ok && q == PipeState(1, 1000, 12, k, false, true, None, None, [], [])
  {
    assert (k + k)[12..] == k;
    var o := ConsumerEndReadData(p, 12);
    result, q := o.result, o.after;
  }

  /** Another two-phase read is offered the second copy; closing the consumer cancels it. */
  method CloseFirstReadRest(p: PipeState, k: seq<byte>) returns (result: MojoResult, offered: nat, data: seq<byte>)
    requires |k| == 12 && p == PipeState(1, 1000, 12, k, false, true, None, None, [], [])
    ensures result == Ok && offered == 12 && data == k
  {
    var o := ConsumerBeginReadData(p, 0, false);
    result, offered, data := o.result, o.numBytes, o.data;
    var c := ConsumerClose(o.after);
  }

  /**
   * CloseWriteRead, second block: after the consumer closes, ending the producer's
   * two-phase write still succeeds, but writing and starting another two-phase write fail
   * with FAILED_PRECONDITION. `lease` is what the producer leaves in the buffer it was
   * offered, `k` first.
   */
  method CloseConsumerFirst(configuredDefault: nat, k: seq<byte>, lease: seq<byte>)
    returns (validation: Result<CreateOptions, MojoResult>, results: seq<MojoResult>, counts: seq<nat>, data: seq<byte>)
    requires configuredDefault > 0
    requires |k| == 12 && |lease| == 988 && lease[..12] == k
    ensures results == [Ok, Ok, Ok, Ok, FailedPrecondition, FailedPrecondition]
    ensures counts == [12, 988, 12] && data == k
    ensures validation == Success(CreateOptions(1, 1000))
  {
    var p;
    validation, p := ValidatedPipe(1, 1000, configuredDefault);
    assert k[..12] == k && [] + k == k;
    var o := ProducerWriteData(p, k, 12, false);
    assert o.after == Idle(1, 1000, 0, k);
    var offered, q2 := CloseSecondBeginWrite(o.after, k);
    var n3, d3, q3 := CloseSecondBeginRead(q2, k);
    var c := ConsumerClose(q3);
    var ended, q5 := CloseSecondEndWrite(c.after, k, lease);
    var refused := CloseSecondRefused(q5, k);
    results, counts, data := [o.result, Ok, Ok, ended] + refused, [o.numBytes, offered, n3], d3;
  }

  /** A two-phase write is offered the free run after `k`. */
  method CloseSecondBeginWrite(p: PipeState, k: seq<byte>) returns (offered: nat, q: PipeState)
    requires |k| == 12 && p == Idle(1, 1000, 0, k)
    ensures offered == 988 && q == PipeState(1, 1000, 0, k, true, true, Some(Lease(12, 988)), None, [], [])
  {
    var o := ProducerBeginWriteData(p, 0, false);
    assert o.result == Ok;
    offered, q := o.numBytes, o.after;
  }

  /** Meanwhile a two-phase read is offered `k`. */
  method CloseSecondBeginRead(p: PipeState, k: seq<byte>) returns (offered: nat, data: seq<byte>, q: PipeState)
    requires |k| == 12 && p == PipeState(1, 1000, 0, k, true, true, Some(Lease(12, 988)), None, [], [])
    ensures offered == 12 && data == k
    ensures q == PipeState(1, 1000, 0, k, true, true, Some(Lease(12, 988)), Some(Lease(0, 12)), [], [])
  {
    var o := ConsumerBeginReadData(p, 0, false);
    assert o.result == Ok;
    offered, data, q := o.numBytes, o.data, o.after;
  }

  /** With the consumer closed, ending the two-phase write still commits. */
  method CloseSecondEndWrite(p: PipeState, k: seq<byte>, lease: seq<byte>) returns (result: MojoResult, q: PipeState)
    requires |k| == 12 && |lease| == 988 && lease[..12] == k
    requires p == PipeState(1, 1000, 0, k, true, false, Some(Lease(12, 988)), None, [], [])
    ensures result == Ok && q == PipeState(1, 1000, 0, k + k, true, false, None, None, [], [])
  {
    var o := ProducerEndWriteData(p, 12, lease);
    result, q := o.result, o.after;
  }

  /** With the consumer closed, writing and starting a two-phase write both fail. */
  method CloseSecondRefused(p: PipeState, k: seq<byte>) returns (results: seq<MojoResult>)
    requires |k| == 12 && p == PipeState(1, 1000, 0, k + k, true, false, None, None, [], [])
    ensures results == [FailedPrecondition, FailedPrecondition]
  {
    var o := ProducerWriteData(p, k, 12, false);
    var o2 := ProducerBeginWriteData(o.after, 0, false);
    results := [o.result, o2.result];
    var c := ProducerClose(o2.after);
  }

  /** CloseWriteRead, third block: both ends can close while a two-phase write is active. */
  method CloseDuringTwoPhaseWrite(configuredDefault: nat)
    returns (validation: Result<CreateOptions, MojoResult>, offered: nat, woken: seq<Wakeup>)
    requires configuredDefault > 0
    ensures offered == 1000 && woken == []
    ensures validation == Success(CreateOptions(1, 1000))
  {
    var p;
    validation, p := ValidatedPipe(1, 1000, configuredDefault);
    var o := ProducerBeginWriteData(p, 0, false);
    assert o.result == Ok && o.after == PipeState(1, 1000, 0, [], true, true, Some(Lease(0, 1000)), None, [], []);
    var c := ConsumerClose(o.after);
    var d := ProducerClose(c.after);
    offered, woken := o.numBytes, c.woken + d.woken;
  }

  /**
   * CloseWriteRead, fourth block: after the producer closes, the data written before can
   * still be peeked and read; then every read, two-phase read and discard fails with
   * FAILED_PRECONDITION.
   */
  method CloseThenReadEmpty(configuredDefault: nat, k: seq<byte>)
    returns (validation: Result<CreateOptions, MojoResult>, results: seq<MojoResult>, counts: seq<nat>, data: seq<byte>)
    requires configuredDefault > 0
    requires |k| == 12
    ensures results == [Ok, Ok, Ok, FailedPrecondition, FailedPrecondition, FailedPrecondition]
    ensures counts == [12, 12, 12] && data == k + k
    ensures validation == Success(CreateOptions(1, 1000))
  {
    var p;
    validation, p := ValidatedPipe(1, 1000, configuredDefault);
    assert k[..12] == k && [] + k == k;
    var o := ProducerWriteData(p, k, 12, false);
    assert o.after == Idle(1, 1000, 0, k);
    var c := ProducerClose(o.after);
    var r, n, d := ReadAfterClose(c.after, k);
    results, counts, data := [o.result] + r, [o.numBytes] + n, d;
  }

  /** Peek and read `k` with the producer closed, then find nothing more to take. */
  method ReadAfterClose(p: PipeState, k: seq<byte>) returns (results: seq<MojoResult>, counts: seq<nat>, data: seq<byte>)
    requires |k| == 12 && p == PipeState(1, 1000, 0, k, false, true, None, None, [], [])
    ensures results == [Ok, Ok, FailedPrecondition, FailedPrecondition, FailedPrecondition]
    ensures counts == [12, 12] && data == k + k
  {
    var o := ConsumerReadData(p, 1000, false, true);
    var o2 := ConsumerReadData(o.after, 1000, false, false);
    assert o2.after == PipeState(1, 1000, 12, [], false, true, None, None, [], []);
    var o3 := ConsumerReadData(o2.after, 1000, false, false);
    var o4 := ConsumerBeginReadData(o3.after, 0, false);
    var o5 := ConsumerDiscardData(o4.after, 10, false);
    results := [o.result, o2.result, o3.result, o4.result, o5.result];
    counts, data := [o.numBytes, o2.numBytes], o.data + o2.data;
    var c := ConsumerClose(o5.after);
  }

  /**
   * TwoPhaseMoreInvalidArguments, producer half, on a pipe of ten four-byte elements:
   * ending a two-phase write that is not active fails with FAILED_PRECONDITION, and ending
   * one with too many bytes or a partial element fails with INVALID_ARGUMENT but still ends
   * it; no data appears throughout. `lease` is what the producer leaves in its buffer.
   */
  method InvalidEndWrites(configuredDefault: nat, lease: seq<byte>)
    returns (validation: Result<CreateOptions, MojoResult>, results: seq<MojoResult>, offered: seq<nat>, queried: seq<nat>)
    requires configuredDefault > 0
    requires |lease| == 40
    ensures results == [FailedPrecondition, Ok, InvalidArgument, FailedPrecondition, Ok, InvalidArgument, FailedPrecondition]
    ensures offered == [40, 40] && queried == [0, 0, 0, 0]
    ensures validation == Success(CreateOptions(4, 40))
  {
    var p;
    validation, p := ValidatedPipe(4, 40, configuredDefault);
    assert p == Idle(4, 40, 0, []);
    var n0 := ConsumerQueryData(p);
    var o := ProducerEndWriteData(p, 4, []);
    var n1 := ConsumerQueryData(o.after);
    var r2, m2, q2 := InvalidEndWriteOnce(o.after, lease, 44);
    var n2 := ConsumerQueryData(q2);
    var r3, m3, q3 := InvalidEndWriteOnce(q2, lease, 1);
    var n3 := ConsumerQueryData(q3);
    results, offered, queried := [o.result] + r2 + r3, [m2, m3], [n0, n1, n2, n3];
    var c := ProducerClose(q3);
    var d := ConsumerClose(c.after);
  }

  /**
   * Begins a two-phase write on the empty pipe, ends it with the bad length `n`, then tries
   * to end it again; the pipe is left as it was.
   */
  method InvalidEndWriteOnce(p: PipeState, lease: seq<byte>, n: nat) returns (results: seq<MojoResult>, offered: nat, q: PipeState)
    requires |lease| == 40 && p == Idle(4, 40, 0, []) && (n == 44 || n == 1)
    ensures results == [Ok, InvalidArgument, FailedPrecondition] && offered == 40 && q == p
  {
    var b := ProducerBeginWriteData(p, 0, false);
    assert b.result == Ok && b.after == PipeState(4, 40, 0, [], true, true, Some(Lease(0, 40)), None, [], []);
    var e := ProducerEndWriteData(b.after, n, lease);
    var e2 := ProducerEndWriteData(e.after, 0, []);
    results, offered, q := [b.result, e.result, e2.result], b.numBytes, e2.after;
  }

  /**
   * TwoPhaseMoreInvalidArguments, consumer half: with one element `x` written, ending a
   * two-phase read that is not active fails with FAILED_PRECONDITION, and ending one with
   * too many bytes or a partial element fails with INVALID_ARGUMENT and consumes nothing.
   */
  method InvalidEndReads(configuredDefault: nat, x: seq<byte>)
    returns (validation: Result<CreateOptions, MojoResult>, results: seq<MojoResult>, offered: seq<nat>, queried: seq<nat>, data: seq<byte>)
    requires configuredDefault > 0
    requires |x| == 4
    ensures results == [Ok, FailedPrecondition, Ok, InvalidArgument, Ok, InvalidArgument]
    ensures offered == [4, 4] && queried == [4, 4, 4, 4] && data == x
    ensures validation == Success(CreateOptions(4, 40))
  {
    var p;
    validation, p := ValidatedPipe(4, 40, configuredDefault);
    assert x[..4] == x && [] + x == x;
    var w := ProducerWriteData(p, x, 4, false);
    assert w.after == Idle(4, 40, 0, x);
    var n0 := ConsumerQueryData(w.after);
    var o := ConsumerEndReadData(w.after, 4);
    var n1 := ConsumerQueryData(o.after);
    var r2, m2, d2, q2 := InvalidEndReadOnce(o.after, x, 8);
    var n2 := ConsumerQueryData(q2);
    var r3, m3, d3, q3 := InvalidEndReadOnce(q2, x, 1);
    var n3 := ConsumerQueryData(q3);
    results, offered, queried, data := [w.result, o.result] + r2 + r3, [m2, m3], [n0, n1, n2, n3], d3;
    var c := ProducerClose(q3);
    var d := ConsumerClose(c.after);
  }

  /**
   * Begins a two-phase read of the one element `x` and ends it with the bad length `n`; the
   * pipe is left as it was.
   */
  method InvalidEndReadOnce(p: PipeState, x: seq<byte>, n: nat) returns (results: seq<MojoResult>, offered: nat, data: seq<byte>, q: PipeState)
    requires |x| == 4 && p == Idle(4, 40, 0, x) && (n == 8 || n == 1)
    ensures results == [Ok, InvalidArgument] && offered == 4 && data == x && q == p
  {
    var b := ConsumerBeginReadData(p, 0, false);
    assert b.result == Ok && b.after == PipeState(4, 40, 0, x, true, true, None, Some(Lease(0, 4)), [], []);
    var e := ConsumerEndReadData(b.after, n);
    results, offered, data, q := [b.result, e.result], b.numBytes, b.data, e.after;
  }
}
