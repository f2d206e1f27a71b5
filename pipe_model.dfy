/**
 * The local data pipe as a value: what the pipe holds and which waits are registered on
 * each end, and one function per operation giving the status, the byte count, the bytes
 * and the wake-ups it produces and the state it leaves behind. The class in
 * `local_data_pipe.dfy` is proved to follow these functions step by step; the properties
 * the pipe promises are proved about them here and in `pipe_properties.dfy`.
 *
 * `contents` is the logical FIFO: the bytes committed by the producer and not yet consumed,
 * oldest first. Where they sit in the circular buffer is fixed by `startIndex` alone.
 */
module DataPipeModel {
  import opened Wrappers
  import opened MojoResults
  import opened HandleSignals
  import opened AwakableList
  import opened DataPipeOptions
  import opened RingLayout
  import opened DataPipeRules
  import opened Alignment

  type byte = b: int | 0 <= b < 256

  /** An active two-phase operation: where its run starts in the buffer and its offered length. */
  datatype Lease = Lease(offset: nat, numBytes: nat)

  datatype PipeState = PipeState(
    elementNumBytes: nat, capacityNumBytes: nat,
    startIndex: nat, contents: seq<byte>,
    producerOpen: bool, consumerOpen: bool,
    producerTwoPhase: Option<Lease>, consumerTwoPhase: Option<Lease>,
    producerAwakables: seq<Registration>, consumerAwakables: seq<Registration>)
  {
    predicate Valid() {
      && elementNumBytes > 0 && capacityNumBytes > 0 && capacityNumBytes % elementNumBytes == 0
      && startIndex < capacityNumBytes && startIndex % elementNumBytes == 0
      && |contents| <= capacityNumBytes && |contents| % elementNumBytes == 0
      // a two-phase write holds (part of) the contiguous free run at the write index
      && (producerTwoPhase.Some? ==>
            && producerOpen
            && producerTwoPhase.value.offset == WriteIndex(startIndex, |contents|, capacityNumBytes)
            && 0 < producerTwoPhase.value.numBytes <= MaxNumBytesToWrite(startIndex, |contents|, capacityNumBytes)
            && producerTwoPhase.value.numBytes % elementNumBytes == 0)
      // a two-phase read holds (part of) the contiguous readable run at the start
      && (consumerTwoPhase.Some? ==>
            && consumerOpen
            && consumerTwoPhase.value.offset == startIndex
            && 0 < consumerTwoPhase.value.numBytes <= MaxNumBytesToRead(startIndex, |contents|, capacityNumBytes)
            && consumerTwoPhase.value.numBytes % elementNumBytes == 0)
      && (!producerOpen ==> producerAwakables == [])
      && (!consumerOpen ==> consumerAwakables == [])
    }

    /** The producer end's `{satisfied, satisfiable}` signals. */
    function ProducerState(): HandleSignalsState {
      ProducerSignals(consumerOpen, producerTwoPhase.Some?, |contents|, capacityNumBytes)
    }

    /** The consumer end's `{satisfied, satisfiable}` signals. */
    function ConsumerState(): HandleSignalsState {
      ConsumerSignals(producerOpen, consumerTwoPhase.Some?, |contents|)
    }
  }

  /**
   * What a data operation reports and leaves behind: its status, the byte count it reports
   * (written, read, discarded or offered; 0 for the end calls), the bytes it hands out (a
   * copying read's or a two-phase read's run; empty otherwise) and the wake-ups it causes.
   */
  datatype Outcome = Outcome(after: PipeState, result: MojoResult, numBytes: nat, data: seq<byte>, woken: seq<Wakeup>)

  /** What `AddAwakable` reports: its decision and the end's signal state. */
  datatype Registered = Registered(after: PipeState, result: MojoResult, state: HandleSignalsState)

  /** What `RemoveAwakable` reports: the end's signal state. */
  datatype Removed = Removed(after: PipeState, state: HandleSignalsState)

  /** What closing an end causes: the wake-ups on the other end. */
  datatype Closed = Closed(after: PipeState, woken: seq<Wakeup>)

  /** A new pipe with validated options: empty, both ends open, nothing registered. */
  function Create(options: CreateOptions): (p: PipeState)
    requires IsValid(options)
    ensures p.Valid() && p.contents == [] && p.startIndex == 0
    ensures p.elementNumBytes == options.elementNumBytes && p.capacityNumBytes == options.capacityNumBytes
    ensures p.ProducerState() == HandleSignalsState(Writable, Writable.Union(PeerClosed))
    ensures p.ConsumerState() == HandleSignalsState(NoSignals, Readable.Union(PeerClosed))
  {
    MultipleIsAligned(0, options.elementNumBytes);
    PipeState(options.elementNumBytes, options.capacityNumBytes, 0, [], true, true, None, None, [], [])
  }

  /** Takes `n` bytes off the front: the start moves `n` places on, wrapping. */
  function Consume(p: PipeState, n: nat): (r: PipeState)
    requires p.Valid() && n <= |p.contents| && n % p.elementNumBytes == 0
    ensures r.Valid()
    ensures r == p.(startIndex := Slot(p.startIndex, n, p.capacityNumBytes), contents := p.contents[n..], consumerTwoPhase := None)
    ensures n == |p.contents| ==> r.contents == []
  {
    var s, c, cap, e := p.startIndex, |p.contents|, p.capacityNumBytes, p.elementNumBytes;
    SlotAligned(s, n, cap, e);
    SubAligned(c, n, e);
    ConsumeKeepsWriteRun(s, c, n, cap);
    p.(startIndex := Slot(s, n, cap), contents := p.contents[n..], consumerTwoPhase := None)
  }

  /**
   * `ProducerWriteData`: the first `numBytes` bytes of `elements` (all of them or none in
   * all-or-none mode, otherwise as many as fit) join the end of the FIFO; the consumer's
   * waits are woken if its state changed.
   */
  function ProducerWriteData(p: PipeState, elements: seq<byte>, numBytes: nat, allOrNone: bool): (r: Outcome)
    requires p.Valid() && p.producerOpen && p.producerTwoPhase.None? && numBytes <= |elements|
    ensures r.after.Valid()
    ensures Transfer(r.result, r.numBytes)
      == WriteDecision(p.consumerOpen, p.elementNumBytes, p.capacityNumBytes - |p.contents|, numBytes, allOrNone)
    ensures r.after == p.(contents := p.contents + elements[..r.numBytes]) && r.data == []
    ensures r.woken == AwakeIfChanged(p.consumerAwakables, p.ConsumerState(), r.after.ConsumerState())
  {
    var c, cap, e := |p.contents|, p.capacityNumBytes, p.elementNumBytes;
    SubAligned(cap, c, e);
    var d := WriteDecision(p.consumerOpen, e, cap - c, numBytes, allOrNone);
    AddAligned(c, d.numBytes, e);
    var after := p.(contents := p.contents + elements[..d.numBytes]);
    assert p.consumerTwoPhase.Some? ==>
      MaxNumBytesToRead(p.startIndex, c, cap) <= MaxNumBytesToRead(p.startIndex, c + d.numBytes, cap);
    Outcome(after, d.result, d.numBytes, [], AwakeIfChanged(p.consumerAwakables, p.ConsumerState(), after.ConsumerState()))
  }

  /**
   * `ConsumerReadData`: the oldest bytes (the requested length or none in all-or-none mode,
   * otherwise as many as there are) are handed out; unless peeking they leave the FIFO and
   * the producer's waits are woken if its state changed.
   */
  function ConsumerReadData(p: PipeState, numBytes: nat, allOrNone: bool, peek: bool): (r: Outcome)
    requires p.Valid() && p.consumerOpen && p.consumerTwoPhase.None?
    ensures r.after.Valid()
    ensures Transfer(r.result, r.numBytes)
      == ReadDecision(p.producerOpen, p.elementNumBytes, |p.contents|, numBytes, allOrNone)
    ensures r.numBytes <= |p.contents| && r.data == p.contents[..r.numBytes]
    ensures r.numBytes == |p.contents| ==> r.data == p.contents
    ensures r.after.contents == if peek then p.contents else p.contents[r.numBytes..]
    ensures r.after == if peek then p else Consume(p, r.numBytes)
    ensures r.woken == AwakeIfChanged(p.producerAwakables, p.ProducerState(), r.after.ProducerState())
  {
    var d := ReadDecision(p.producerOpen, p.elementNumBytes, |p.contents|, numBytes, allOrNone);
    var after := if peek then p else Consume(p, d.numBytes);
    Outcome(after, d.result, d.numBytes, p.contents[..d.numBytes], AwakeIfChanged(p.producerAwakables, p.ProducerState(), after.ProducerState()))
  }

  /** `ConsumerDiscardData`: as a copying read that hands nothing out and never peeks. */
  function ConsumerDiscardData(p: PipeState, numBytes: nat, allOrNone: bool): (r: Outcome)
    requires p.Valid() && p.consumerOpen && p.consumerTwoPhase.None?
    ensures r.after.Valid()
    ensures Transfer(r.result, r.numBytes)
      == ReadDecision(p.producerOpen, p.elementNumBytes, |p.contents|, numBytes, allOrNone)
    ensures r.numBytes <= |p.contents| && r.after.contents == p.contents[r.numBytes..] && r.data == []
    ensures r.after == Consume(p, r.numBytes)
    ensures r.woken == AwakeIfChanged(p.producerAwakables, p.ProducerState(), r.after.ProducerState())
  {
    var d := ReadDecision(p.producerOpen, p.elementNumBytes, |p.contents|, numBytes, allOrNone);
    var after := Consume(p, d.numBytes);
    Outcome(after, d.result, d.numBytes, [], AwakeIfChanged(p.producerAwakables, p.ProducerState(), after.ProducerState()))
  }

  /** `ConsumerQueryData`: how many bytes there are to read, a whole number of elements. */
  function ConsumerQueryData(p: PipeState): (n: nat)
    requires p.Valid() && p.consumerOpen && p.consumerTwoPhase.None?
    ensures n == |p.contents| && n <= p.capacityNumBytes && n % p.elementNumBytes == 0
  {
    |p.contents|
  }

  /**
   * `ProducerBeginWriteData`: leases the contiguous free run at the write index (all of it;
   * in all-or-none mode only if the requested length fits in it).
   */
  function ProducerBeginWriteData(p: PipeState, numBytes: nat, allOrNone: bool): (r: Outcome)
    requires p.Valid() && p.producerOpen && p.producerTwoPhase.None?
    ensures r.after.Valid()
    ensures Transfer(r.result, r.numBytes) == BeginWriteDecision(p.consumerOpen, p.elementNumBytes,
      MaxNumBytesToWrite(p.startIndex, |p.contents|, p.capacityNumBytes), numBytes, allOrNone)
    ensures r.after == p.(producerTwoPhase := if r.result == Ok
      then Some(Lease(WriteIndex(p.startIndex, |p.contents|, p.capacityNumBytes), r.numBytes)) else None)
    ensures r.data == [] && r.woken == []
  {
    var run := MaxNumBytesToWrite(p.startIndex, |p.contents|, p.capacityNumBytes);
    var d := BeginWriteDecision(p.consumerOpen, p.elementNumBytes, run, numBytes, allOrNone);
    LayoutAligned(p.startIndex, |p.contents|, p.capacityNumBytes, p.elementNumBytes);
    var lease := Lease(WriteIndex(p.startIndex, |p.contents|, p.capacityNumBytes), d.numBytes);
    Outcome(p.(producerTwoPhase := if d.result == Ok then Some(lease) else None), d.result, d.numBytes, [], [])
  }

  /**
   * `ProducerEndWriteData`: ends the two-phase write. `written` is what the producer stored
   * in its lease; a valid length commits its first `numBytesWritten` bytes, a bad one ends
   * the write and commits nothing. The producer's waits are woken if it is now WRITABLE,
   * the consumer's if its state changed.
   */
  function ProducerEndWriteData(p: PipeState, numBytesWritten: nat, written: seq<byte>): (r: Outcome)
    requires p.Valid() && p.producerOpen
    requires p.producerTwoPhase.Some? ==> |written| == p.producerTwoPhase.value.numBytes
    ensures r.after.Valid() && r.after.producerTwoPhase.None? && r.numBytes == 0 && r.data == []
    ensures r.result == EndDecision(if p.producerTwoPhase.Some? then Some(p.producerTwoPhase.value.numBytes) else None,
      p.elementNumBytes, numBytesWritten)
    ensures r.after == p.(producerTwoPhase := None,
      contents := if r.result == Ok then p.contents + written[..numBytesWritten] else p.contents)
    ensures r.woken == if p.producerTwoPhase.None? then [] else
      (if r.after.ProducerState().Satisfies(Writable) then AwakeForStateChange(r.after.producerAwakables, r.after.ProducerState()) else [])
      + AwakeIfChanged(p.consumerAwakables, p.ConsumerState(), r.after.ConsumerState())
  {
    var offered := if p.producerTwoPhase.Some? then Some(p.producerTwoPhase.value.numBytes) else None;
    var result := EndDecision(offered, p.elementNumBytes, numBytesWritten);
    if p.producerTwoPhase.None? then Outcome(p, result, 0, [], [])
    else
      var c, cap := |p.contents|, p.capacityNumBytes;
      var n := if result == Ok then numBytesWritten else 0;
      AddAligned(c, n, p.elementNumBytes);
      assert p.consumerTwoPhase.Some? ==>
        MaxNumBytesToRead(p.startIndex, c, cap) <= MaxNumBytesToRead(p.startIndex, c + n, cap);
      var after := p.(producerTwoPhase := None, contents := p.contents + written[..n]);
      var producerWoken := if after.ProducerState().Satisfies(Writable)
        then AwakeForStateChange(after.producerAwakables, after.ProducerState()) else [];
      Outcome(after, result, 0, [], producerWoken + AwakeIfChanged(p.consumerAwakables, p.ConsumerState(), after.ConsumerState()))
  }

  /**
   * `ConsumerBeginReadData`: leases the contiguous readable run at the start (all of it; in
   * all-or-none mode only if the requested length fits in it) and shows its bytes, which
   * are the oldest in the FIFO.
   */
  function ConsumerBeginReadData(p: PipeState, numBytes: nat, allOrNone: bool): (r: Outcome)
    requires p.Valid() && p.consumerOpen && p.consumerTwoPhase.None?
    ensures r.after.Valid()
    ensures Transfer(r.result, r.numBytes) == BeginReadDecision(p.producerOpen, p.elementNumBytes,
      MaxNumBytesToRead(p.startIndex, |p.contents|, p.capacityNumBytes), numBytes, allOrNone)
    ensures r.after == p.(consumerTwoPhase := if r.result == Ok then Some(Lease(p.startIndex, r.numBytes)) else None)
    ensures r.numBytes <= |p.contents| && r.data == p.contents[..r.numBytes] && r.woken == []
    ensures r.numBytes == |p.contents| ==> r.data == p.contents
  {
    var run := MaxNumBytesToRead(p.startIndex, |p.contents|, p.capacityNumBytes);
    var d := BeginReadDecision(p.producerOpen, p.elementNumBytes, run, numBytes, allOrNone);
    LayoutAligned(p.startIndex, |p.contents|, p.capacityNumBytes, p.elementNumBytes);
    Outcome(p.(consumerTwoPhase := if d.result == Ok then Some(Lease(p.startIndex, d.numBytes)) else None),
      d.result, d.numBytes, p.contents[..d.numBytes], [])
  }

  /**
   * `ConsumerEndReadData`: ends the two-phase read; a valid length consumes that many bytes,
   * a bad one ends the read and consumes nothing. The consumer's waits are woken if it is
   * now READABLE, the producer's if its state changed.
   */
  function ConsumerEndReadData(p: PipeState, numBytesRead: nat): (r: Outcome)
    requires p.Valid() && p.consumerOpen
    ensures r.after.Valid() && r.after.consumerTwoPhase.None? && r.numBytes == 0 && r.data == []
    ensures r.result == EndDecision(if p.consumerTwoPhase.Some? then Some(p.consumerTwoPhase.value.numBytes) else None,
      p.elementNumBytes, numBytesRead)
    ensures r.result == Ok ==> numBytesRead <= |p.contents| && r.after == Consume(p, numBytesRead)
    ensures r.result != Ok ==> r.after == p.(consumerTwoPhase := None)
    ensures r.woken == if p.consumerTwoPhase.None? then [] else
      (if r.after.ConsumerState().Satisfies(Readable) then AwakeForStateChange(r.after.consumerAwakables, r.after.ConsumerState()) else [])
      + AwakeIfChanged(p.producerAwakables, p.ProducerState(), r.after.ProducerState())
  {
    var offered := if p.consumerTwoPhase.Some? then Some(p.consumerTwoPhase.value.numBytes) else None;
    var result := EndDecision(offered, p.elementNumBytes, numBytesRead);
    if p.consumerTwoPhase.None? then Outcome(p, result, 0, [], [])
    else
      var after := if result == Ok then Consume(p, numBytesRead) else p.(consumerTwoPhase := None);
      var consumerWoken := if after.ConsumerState().Satisfies(Readable)
        then AwakeForStateChange(after.consumerAwakables, after.ConsumerState()) else [];
      Outcome(after, result, 0, [], consumerWoken + AwakeIfChanged(p.producerAwakables, p.ProducerState(), after.ProducerState()))
  }

  /** `ProducerAddAwakable`: registers a wait on the producer end unless it is decided already. */
  function ProducerAddAwakable(p: PipeState, awakable: AwakableId, signals: Signals, context: nat): (r: Registered)
    requires p.Valid() && p.producerOpen
    ensures r.after.Valid()
    ensures r.state == p.ProducerState() && r.result == AddDecision(r.state, signals)
    ensures r.after == p.(producerAwakables := p.producerAwakables
      + if r.result == Ok then [Registration(awakable, signals, context)] else [])
  {
    var state := p.ProducerState();
    var result := AddDecision(state, signals);
    Registered(if result == Ok then p.(producerAwakables := p.producerAwakables + [Registration(awakable, signals, context)]) else p,
      result, state)
  }

  /** `ProducerRemoveAwakable`: drops the awakable's waits and reports the current state. */
  function ProducerRemoveAwakable(p: PipeState, awakable: AwakableId): (r: Removed)
    requires p.Valid() && p.producerOpen
    ensures r.after.Valid()
    ensures r.after == p.(producerAwakables := Remove(p.producerAwakables, awakable)) && r.state == p.ProducerState()
  {
    Removed(p.(producerAwakables := Remove(p.producerAwakables, awakable)), p.ProducerState())
  }

  /** `ConsumerAddAwakable`: registers a wait on the consumer end unless it is decided already. */
  function ConsumerAddAwakable(p: PipeState, awakable: AwakableId, signals: Signals, context: nat): (r: Registered)
    requires p.Valid() && p.consumerOpen
    ensures r.after.Valid()
    ensures r.state == p.ConsumerState() && r.result == AddDecision(r.state, signals)
    ensures r.after == p.(consumerAwakables := p.consumerAwakables
      + if r.result == Ok then [Registration(awakable, signals, context)] else [])
  {
    var state := p.ConsumerState();
    var result := AddDecision(state, signals);
    Registered(if result == Ok then p.(consumerAwakables := p.consumerAwakables + [Registration(awakable, signals, context)]) else p,
      result, state)
  }

  /** `ConsumerRemoveAwakable`: drops the awakable's waits and reports the current state. */
  function ConsumerRemoveAwakable(p: PipeState, awakable: AwakableId): (r: Removed)
    requires p.Valid() && p.consumerOpen
    ensures r.after.Valid()
    ensures r.after == p.(consumerAwakables := Remove(p.consumerAwakables, awakable)) && r.state == p.ConsumerState()
  {
    Removed(p.(consumerAwakables := Remove(p.consumerAwakables, awakable)), p.ConsumerState())
  }

  /**
   * `ProducerClose`: cancels an active two-phase write without committing anything, drops
   * the producer's waits and wakes the consumer's waits with its new state.
   */
  function ProducerClose(p: PipeState): (r: Closed)
    requires p.Valid() && p.producerOpen
    ensures r.after.Valid()
    ensures r.after == p.(producerOpen := false, producerTwoPhase := None, producerAwakables := [])
    ensures r.woken == AwakeForStateChange(p.consumerAwakables, r.after.ConsumerState())
  {
    var after := p.(producerOpen := false, producerTwoPhase := None, producerAwakables := []);
    Closed(after, AwakeForStateChange(p.consumerAwakables, after.ConsumerState()))
  }

  /**
   * `ConsumerClose`: cancels an active two-phase read, drops the consumer's waits and wakes
   * the producer's waits with its new state.
   */
  function ConsumerClose(p: PipeState): (r: Closed)
    requires p.Valid() && p.consumerOpen
    ensures r.after.Valid()
    ensures r.after == p.(consumerOpen := false, consumerTwoPhase := None, consumerAwakables := [])
    ensures r.woken == AwakeForStateChange(p.producerAwakables, r.after.ProducerState())
  {
    var after := p.(consumerOpen := false, consumerTwoPhase := None, consumerAwakables := []);
    Closed(after, AwakeForStateChange(p.producerAwakables, after.ProducerState()))
  }
}
