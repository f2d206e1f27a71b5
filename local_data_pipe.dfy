/**
 * The local data pipe as the program keeps it: one producer and one consumer sharing a
 * fixed-capacity circular buffer of bytes, with copying reads and writes (which may wrap
 * around the end of the buffer), two-phase reads and writes (which hand out one contiguous
 * run of the buffer), and a registry of awakables on each end.
 *
 * Every method is proved to do what the matching function of `DataPipeModel` says, on the
 * pipe's abstract state `Model()`; `Valid()` ties that state to the buffer: the ghost FIFO
 * `contents` sits in the buffer in order, starting at `startIndex` and wrapping.
 */
module LocalDataPipeImpl {
  import opened Wrappers
  import opened MojoResults
  import opened HandleSignals
  import opened AwakableList
  import opened DataPipeOptions
  import opened RingLayout
  import opened DataPipeRules
  import opened Alignment
  import opened DataPipeModel

  /** Copies all of `src` into `dst` from `dstIndex` on (a `memcpy`). */
  method CopyBytes(dst: array<byte>, dstIndex: nat, src: seq<byte>)
    requires dstIndex + |src| <= dst.Length
    modifies dst
    ensures dst[..] == Splice(old(dst[..]), dstIndex, src)
  {
    var j := 0;
    while j < |src|
      invariant 0 <= j <= |src|
      invariant forall i :: 0 <= i < dst.Length ==>
        dst[i] == if dstIndex <= i < dstIndex + j then src[i - dstIndex] else old(dst[i])
    {
      dst[dstIndex + j] := src[j];
      j := j + 1;
    }
  }

  /**
   * Copies the first `first` bytes of `data` to `dst` at `dstIndex`, and the rest to the
   * front of `dst` (skipped when there is no rest).
   */
  method CopyInTwoPieces(dst: array<byte>, dstIndex: nat, data: seq<byte>, first: nat)
    requires first <= |data| && dstIndex + first <= dst.Length && |data| - first <= dst.Length
    modifies dst
    ensures dst[..] == Splice(Splice(old(dst[..]), dstIndex, data[..first]), 0, data[first..])
  {
    CopyBytes(dst, dstIndex, data[..first]);
    if first < |data| {
      CopyBytes(dst, 0, data[first..]);
    } else {
      assert dst[..] == Splice(dst[..], 0, data[first..]);
    }
  }

  /**
   * Copies the first `n` of the `current` bytes the ring `src` holds from `start` on into `dst`: a run
   * from `start` up to the physical end, then (if needed) a run from the front.
   */
  method CopyOutOfRing(src: array<byte>, start: nat, current: nat, ghost data: seq<byte>, dst: array<byte>, n: nat)
    requires src != dst && Holds(src[..], start, data) && current == |data| && n <= current && n <= dst.Length
    modifies dst
    ensures dst[..n] == data[..n] && dst[n..] == old(dst[n..])
  {
    var first := Min(n, MaxNumBytesToRead(start, current, src.Length));
    var ring := src[..];
    ReadHolds(ring, start, data, n);
    ghost var original := dst[..];
    CopyBytes(dst, 0, ring[start..start + first]);
    if first < n {
      CopyBytes(dst, first, ring[..n - first]);
    } else {
      assert dst[..] == Splice(dst[..], first, ring[..n - first]);
    }
    SpliceTwice(original, ring[start..start + first], ring[..n - first]);
  }

  /** Writing `a` at the front and then `b` right after it puts `a + b` first and keeps the rest. */
  lemma SpliceTwice<T>(original: seq<T>, a: seq<T>, b: seq<T>)
    requires |a| + |b| <= |original|
    ensures var out := Splice(Splice(original, 0, a), |a|, b);
      out[..|a| + |b|] == a + b && out[|a| + |b|..] == original[|a| + |b|..]
  {
    var out := Splice(Splice(original, 0, a), |a|, b);
    assert out[..|a| + |b|] == a + b;
  }

  /** Ending a two-phase write by committing whole elements of its lease leaves a valid pipe. */
  lemma CommitKeepsValid(p: PipeState, bytes: seq<byte>)
    requires p.Valid() && p.producerTwoPhase.Some?
    requires |bytes| <= p.producerTwoPhase.value.numBytes && |bytes| % p.elementNumBytes == 0
    ensures p.(producerTwoPhase := None, contents := p.contents + bytes).Valid()
  {
    GrowKeepsValid(p.(producerTwoPhase := None), bytes);
  }

  /** Adding whole elements that fit to the FIFO, with no two-phase write active, leaves a valid pipe. */
  lemma GrowKeepsValid(p: PipeState, bytes: seq<byte>)
    requires p.Valid() && p.producerTwoPhase.None?
    requires |p.contents| + |bytes| <= p.capacityNumBytes && |bytes| % p.elementNumBytes == 0
    ensures p.(contents := p.contents + bytes).Valid()
  {
    var s, c, cap := p.startIndex, |p.contents|, p.capacityNumBytes;
    if p.consumerTwoPhase.Some? {
      assert MaxNumBytesToRead(s, c, cap) <= MaxNumBytesToRead(s, c + |bytes|, cap);
    }
    AddAligned(c, |bytes|, p.elementNumBytes);
  }

  class LocalDataPipe {
    const elementNumBytes: nat
    const capacityNumBytes: nat
    const buffer: array<byte>
    var startIndex: nat
    var currentNumBytes: nat
    var producerOpen: bool
    var consumerOpen: bool
    var producerTwoPhase: Option<Lease>
    var consumerTwoPhase: Option<Lease>
    var producerAwakables: seq<Registration>
    var consumerAwakables: seq<Registration>
    /** The bytes in the pipe, oldest first. */
    ghost var contents: seq<byte>

    /** The pipe's abstract state. */
    ghost function Model(): PipeState
      reads this
    {
      PipeState(elementNumBytes, capacityNumBytes, startIndex, contents, producerOpen, consumerOpen,
        producerTwoPhase, consumerTwoPhase, producerAwakables, consumerAwakables)
    }

    ghost predicate Valid()
      reads this, buffer
    {
      && Model().Valid()
      && buffer.Length == capacityNumBytes && currentNumBytes == |contents|
      // FIFO layout: the k-th byte in the pipe sits k places after the start, wrapping
      && Holds(buffer[..], startIndex, contents)
    }

    /** The producer end's `{satisfied, satisfiable}` signals, from the byte count. */
    function ProducerState(): (s: HandleSignalsState)
      reads this
      ensures currentNumBytes == |contents| ==> s == Model().ProducerState()
    {
      ProducerSignals(consumerOpen, producerTwoPhase.Some?, currentNumBytes, capacityNumBytes)
    }

    /** The consumer end's `{satisfied, satisfiable}` signals, from the byte count. */
    function ConsumerState(): (s: HandleSignalsState)
      reads this
      ensures currentNumBytes == |contents| ==> s == Model().ConsumerState()
    {
      ConsumerSignals(producerOpen, consumerTwoPhase.Some?, currentNumBytes)
    }

    /** What the producer has stored in its two-phase write lease (nothing without one). */
    ghost function WriteLeaseBytes(): (r: seq<byte>)
      reads this, buffer
      requires Valid()
      ensures producerTwoPhase.Some? ==> |r| == producerTwoPhase.value.numBytes
    {
      if producerTwoPhase.None? then []
      else buffer[producerTwoPhase.value.offset..producerTwoPhase.value.offset + producerTwoPhase.value.numBytes]
    }

    /** `DataPipe::CreateLocal` with validated options: an empty pipe, both ends open. */
    constructor (options: CreateOptions)
      requires IsValid(options)
      ensures Valid() && fresh(buffer)
      ensures Model() == Create(options)
    {
      elementNumBytes := options.elementNumBytes;
      capacityNumBytes := options.capacityNumBytes;
      buffer := new byte[options.capacityNumBytes];
      startIndex, currentNumBytes := 0, 0;
      producerOpen, consumerOpen := true, true;
      producerTwoPhase, consumerTwoPhase := None, None;
      producerAwakables, consumerAwakables := [], [];
      contents := [];
      MultipleIsAligned(0, options.elementNumBytes);
    }

    /**
     * `ProducerWriteData`: writes the first `numBytes` bytes of `elements` (all of them or
     * none in all-or-none mode, otherwise as many as fit), copying in two pieces when the
     * free space wraps around the end of the buffer.
     */
    method ProducerWriteData(elements: seq<byte>, numBytes: nat, allOrNone: bool)
      returns (result: MojoResult, numBytesWritten: nat, woken: seq<Wakeup>)
      requires Valid() && producerOpen && producerTwoPhase.None? && numBytes <= |elements|
      modifies this`currentNumBytes, this`contents, buffer
      ensures Valid()
      ensures var o := DataPipeModel.ProducerWriteData(old(Model()), elements, numBytes, allOrNone);
        Model() == o.after && result == o.result && numBytesWritten == o.numBytes && woken == o.woken
    {
      SubAligned(capacityNumBytes, currentNumBytes, elementNumBytes);
      var decision := WriteDecision(consumerOpen, elementNumBytes, capacityNumBytes - currentNumBytes, numBytes, allOrNone);
      result, numBytesWritten := decision.result, decision.numBytes;
      var before := ConsumerState();
      if numBytesWritten > 0 {
        Append(elements[..numBytesWritten]);
      }
      woken := AwakeIfChanged(consumerAwakables, before, ConsumerState());
    }

    /**
     * Copies `data` in after the bytes in the pipe, in two pieces when the free space wraps
     * around the end of the buffer, and commits it.
     */
    method Append(data: seq<byte>)
      requires Valid() && producerTwoPhase.None?
      requires |data| <= capacityNumBytes - currentNumBytes && |data| % elementNumBytes == 0
      modifies this`currentNumBytes, this`contents, buffer
      ensures Valid()
      ensures contents == old(contents) + data
    {
      var s, c, n := startIndex, currentNumBytes, |data|;
      var writeIndex := WriteIndex(s, c, capacityNumBytes);
      var first := Min(n, MaxNumBytesToWrite(s, c, capacityNumBytes));
      AppendHolds(buffer[..], s, contents, data);
      CopyInTwoPieces(buffer, writeIndex, data, first);
      GrowKeepsValid(Model(), data);
      currentNumBytes := c + n;
      contents := contents + data;
    }

    /** Moves the start past `n` bytes that have been read or discarded, ending a two-phase read. */
    method Consume(n: nat)
      requires Valid() && n <= currentNumBytes && n % elementNumBytes == 0
      modifies this`startIndex, this`currentNumBytes, this`contents, this`consumerTwoPhase
      ensures Valid()
      ensures Model() == DataPipeModel.Consume(old(Model()), n)
    {
      var s, c := startIndex, currentNumBytes;
      ConsumeHolds(buffer[..], s, contents, n);
      ConsumeKeepsWriteRun(s, c, n, capacityNumBytes);
      SlotAligned(s, n, capacityNumBytes, elementNumBytes);
      SubAligned(c, n, elementNumBytes);
      startIndex := Slot(s, n, capacityNumBytes);
      currentNumBytes := c - n;
      contents := contents[n..];
      consumerTwoPhase := None;
    }

    /**
     * `ConsumerReadData`: copies the oldest bytes into `elements` (all of the requested
     * length or none in all-or-none mode, otherwise as many as there are), in two pieces
     * when they wrap around the end of the buffer; a peek leaves them in the pipe.
     */
    method ConsumerReadData(elements: array<byte>, numBytes: nat, allOrNone: bool, peek: bool)
      returns (result: MojoResult, numBytesRead: nat, woken: seq<Wakeup>)
      requires Valid() && consumerOpen && consumerTwoPhase.None?
      requires elements != buffer && numBytes <= elements.Length
      modifies this`startIndex, this`currentNumBytes, this`contents, this`consumerTwoPhase, elements
      ensures Valid()
      ensures var o := DataPipeModel.ConsumerReadData(old(Model()), numBytes, allOrNone, peek);
        && Model() == o.after && result == o.result && numBytesRead == o.numBytes && woken == o.woken
        && elements[..numBytesRead] == o.data && elements[numBytesRead..] == old(elements[numBytesRead..])
    {
      var decision := ReadDecision(producerOpen, elementNumBytes, currentNumBytes, numBytes, allOrNone);
      result, numBytesRead := decision.result, decision.numBytes;
      var before := ProducerState();
      if numBytesRead > 0 {
        CopyOutOfRing(buffer, startIndex, currentNumBytes, contents, elements, numBytesRead);
        if !peek {
          Consume(numBytesRead);
        }
      }
      woken := AwakeIfChanged(producerAwakables, before, ProducerState());
    }

    /** `ConsumerDiscardData`: drops the oldest bytes without copying them. */
    method ConsumerDiscardData(numBytes: nat, allOrNone: bool)
      returns (result: MojoResult, numBytesDiscarded: nat, woken: seq<Wakeup>)
      requires Valid() && consumerOpen && consumerTwoPhase.None?
      modifies this`startIndex, this`currentNumBytes, this`contents, this`consumerTwoPhase
      ensures Valid()
      ensures var o := DataPipeModel.ConsumerDiscardData(old(Model()), numBytes, allOrNone);
        Model() == o.after && result == o.result && numBytesDiscarded == o.numBytes && woken == o.woken
    {
      var decision := ReadDecision(producerOpen, elementNumBytes, currentNumBytes, numBytes, allOrNone);
      result, numBytesDiscarded := decision.result, decision.numBytes;
      var before := ProducerState();
      if numBytesDiscarded > 0 {
        Consume(numBytesDiscarded);
      }
      woken := AwakeIfChanged(producerAwakables, before, ProducerState());
    }

    /** `ConsumerQueryData`: the number of bytes there are to read. */
    method ConsumerQueryData() returns (result: MojoResult, numBytes: nat)
      requires Valid() && consumerOpen && consumerTwoPhase.None?
      ensures result == Ok && numBytes == DataPipeModel.ConsumerQueryData(Model())
    {
      result, numBytes := Ok, currentNumBytes;
    }

    /**
     * `ProducerBeginWriteData`: offers the contiguous free run at the write index as a
     * two-phase write lease.
     */
    method ProducerBeginWriteData(numBytes: nat, allOrNone: bool)
      returns (result: MojoResult, offset: nat, offered: nat)
      requires Valid() && producerOpen && producerTwoPhase.None?
      modifies this`producerTwoPhase
      ensures Valid()
      ensures var o := DataPipeModel.ProducerBeginWriteData(old(Model()), numBytes, allOrNone);
        Model() == o.after && result == o.result && offered == o.numBytes
      ensures result == Ok ==> producerTwoPhase == Some(Lease(offset, offered))
    {
      var run := MaxNumBytesToWrite(startIndex, currentNumBytes, capacityNumBytes);
      var decision := BeginWriteDecision(consumerOpen, elementNumBytes, run, numBytes, allOrNone);
      result, offered := decision.result, decision.numBytes;
      offset := 0;
      if result == Ok {
        LayoutAligned(startIndex, currentNumBytes, capacityNumBytes, elementNumBytes);
        offset := WriteIndex(startIndex, currentNumBytes, capacityNumBytes);
        producerTwoPhase := Some(Lease(offset, offered));
      }
    }

    /** The producer storing `value` at position `i` of its two-phase write lease. */
    method StoreIntoWriteLease(i: nat, value: byte)
      requires Valid() && producerTwoPhase.Some? && i < producerTwoPhase.value.numBytes
      modifies buffer
      ensures Valid()
      ensures buffer[..] == old(buffer[..])[producerTwoPhase.value.offset + i := value]
    {
      StoreHolds(buffer[..], startIndex, contents, producerTwoPhase.value.offset + i, value);
      buffer[producerTwoPhase.value.offset + i] := value;
    }

    /**
     * `ProducerEndWriteData`: ends the two-phase write, committing the first
     * `numBytesWritten` bytes of the lease. A bad length ends it too but commits nothing.
     */
    method ProducerEndWriteData(numBytesWritten: nat) returns (result: MojoResult, woken: seq<Wakeup>)
      requires Valid() && producerOpen
      modifies this`producerTwoPhase, this`currentNumBytes, this`contents
      ensures Valid()
      ensures var o := DataPipeModel.ProducerEndWriteData(old(Model()), numBytesWritten, old(WriteLeaseBytes()));
        Model() == o.after && result == o.result && woken == o.woken
    {
      var offered := if producerTwoPhase.Some? then Some(producerTwoPhase.value.numBytes) else None;
      result := EndDecision(offered, elementNumBytes, numBytesWritten);
      if producerTwoPhase.None? {
        woken := [];
        return;
      }
      var before := ConsumerState();
      if result == Ok {
        Commit(numBytesWritten);
      } else {
        producerTwoPhase := None;
      }
      var after := ProducerState();
      woken := if after.Satisfies(Writable) then AwakeForStateChange(producerAwakables, after) else [];
      woken := woken + AwakeIfChanged(consumerAwakables, before, ConsumerState());
    }

    /**
     * Ends the two-phase write committing the first `n` bytes of its lease: they join the
     * FIFO where they already are.
     */
    method Commit(n: nat)
      requires Valid() && producerTwoPhase.Some? && n <= producerTwoPhase.value.numBytes && n % elementNumBytes == 0
      modifies this`currentNumBytes, this`contents, this`producerTwoPhase
      ensures Valid() && producerTwoPhase.None?
      ensures contents == old(contents) + old(WriteLeaseBytes())[..n]
    {
      var c, offset := currentNumBytes, producerTwoPhase.value.offset;
      ghost var committed := buffer[offset..offset + n];
      assert committed == WriteLeaseBytes()[..n];
      CommitHolds(buffer[..], startIndex, contents, n);
      assert Holds(buffer[..], startIndex, contents + committed);
      CommitKeepsValid(Model(), committed);
      producerTwoPhase := None;
      currentNumBytes := c + n;
      contents := contents + committed;
    }

    /**
     * `ConsumerBeginReadData`: offers the contiguous readable run at the start as a
     * two-phase read lease; the run holds the oldest bytes in the pipe.
     */
    method ConsumerBeginReadData(numBytes: nat, allOrNone: bool)
      returns (result: MojoResult, offset: nat, offered: nat)
      requires Valid() && consumerOpen && consumerTwoPhase.None?
      modifies this`consumerTwoPhase
      ensures Valid()
      ensures var o := DataPipeModel.ConsumerBeginReadData(old(Model()), numBytes, allOrNone);
        && Model() == o.after && result == o.result && offered == o.numBytes
        && offset + offered <= buffer.Length && buffer[offset..offset + offered] == o.data
      ensures result == Ok ==> consumerTwoPhase == Some(Lease(offset, offered))
    {
      var run := MaxNumBytesToRead(startIndex, currentNumBytes, capacityNumBytes);
      var decision := BeginReadDecision(producerOpen, elementNumBytes, run, numBytes, allOrNone);
      result, offered := decision.result, decision.numBytes;
      offset := 0;
      if result == Ok {
        LayoutAligned(startIndex, currentNumBytes, capacityNumBytes, elementNumBytes);
        ReadHolds(buffer[..], startIndex, contents, run);
        assert buffer[..][..0] == [];
        offset := startIndex;
        consumerTwoPhase := Some(Lease(offset, offered));
      }
    }

    /**
     * `ConsumerEndReadData`: ends the two-phase read, consuming the first `numBytesRead`
     * bytes of the lease. A bad length ends it too but consumes nothing.
     */
    method ConsumerEndReadData(numBytesRead: nat) returns (result: MojoResult, woken: seq<Wakeup>)
      requires Valid() && consumerOpen
      modifies this`consumerTwoPhase, this`startIndex, this`currentNumBytes, this`contents
      ensures Valid()
      ensures var o := DataPipeModel.ConsumerEndReadData(old(Model()), numBytesRead);
        Model() == o.after && result == o.result && woken == o.woken
    {
      var offered := if consumerTwoPhase.Some? then Some(consumerTwoPhase.value.numBytes) else None;
      result := EndDecision(offered, elementNumBytes, numBytesRead);
      if consumerTwoPhase.None? {
        woken := [];
        return;
      }
      var before := ProducerState();
      if result == Ok {
        Consume(numBytesRead);
      } else {
        consumerTwoPhase := None;
      }
      var after := ConsumerState();
      woken := if after.Satisfies(Readable) then AwakeForStateChange(consumerAwakables, after) else [];
      woken := woken + AwakeIfChanged(producerAwakables, before, ProducerState());
    }

    /** `ProducerAddAwakable`: registers a wait on the producer end unless it is decided already. */
    method ProducerAddAwakable(awakable: AwakableId, signals: Signals, context: nat)
      returns (result: MojoResult, state: HandleSignalsState)
      requires Valid() && producerOpen
      modifies this`producerAwakables
      ensures Valid()
      ensures var o := DataPipeModel.ProducerAddAwakable(old(Model()), awakable, signals, context);
        Model() == o.after && result == o.result && state == o.state
    {
      state := ProducerState();
      result := AddDecision(state, signals);
      if result == Ok {
        producerAwakables := producerAwakables + [Registration(awakable, signals, context)];
      }
    }

    /** `ProducerRemoveAwakable`: drops the awakable's waits and reports the current state. */
    method ProducerRemoveAwakable(awakable: AwakableId) returns (state: HandleSignalsState)
      requires Valid() && producerOpen
      modifies this`producerAwakables
      ensures Valid()
      ensures var o := DataPipeModel.ProducerRemoveAwakable(old(Model()), awakable);
        Model() == o.after && state == o.state
    {
      producerAwakables := Remove(producerAwakables, awakable);
      state := ProducerState();
    }

    /** `ConsumerAddAwakable`: registers a wait on the consumer end unless it is decided already. */
    method ConsumerAddAwakable(awakable: AwakableId, signals: Signals, context: nat)
      returns (result: MojoResult, state: HandleSignalsState)
      requires Valid() && consumerOpen
      modifies this`consumerAwakables
      ensures Valid()
      ensures var o := DataPipeModel.ConsumerAddAwakable(old(Model()), awakable, signals, context);
        Model() == o.after && result == o.result && state == o.state
    {
      state := ConsumerState();
      result := AddDecision(state, signals);
      if result == Ok {
        consumerAwakables := consumerAwakables + [Registration(awakable, signals, context)];
      }
    }

    /** `ConsumerRemoveAwakable`: drops the awakable's waits and reports the current state. */
    method ConsumerRemoveAwakable(awakable: AwakableId) returns (state: HandleSignalsState)
      requires Valid() && consumerOpen
      modifies this`consumerAwakables
      ensures Valid()
      ensures var o := DataPipeModel.ConsumerRemoveAwakable(old(Model()), awakable);
        Model() == o.after && state == o.state
    {
      consumerAwakables := Remove(consumerAwakables, awakable);
      state := ConsumerState();
    }

    /**
     * `ProducerClose`: cancels an active two-phase write without committing anything, drops
     * the producer's waits and wakes the consumer's waits with its new state.
     */
    method ProducerClose() returns (woken: seq<Wakeup>)
      requires Valid() && producerOpen
      modifies this`producerOpen, this`producerTwoPhase, this`producerAwakables
      ensures Valid()
      ensures var o := DataPipeModel.ProducerClose(old(Model()));
        Model() == o.after && woken == o.woken
    {
      producerOpen := false;
      producerAwakables := [];
      producerTwoPhase := None;
      woken := AwakeForStateChange(consumerAwakables, ConsumerState());
    }

    /**
     * `ConsumerClose`: cancels an active two-phase read, drops the consumer's waits and
     * wakes the producer's waits with its new state.
     */
    method ConsumerClose() returns (woken: seq<Wakeup>)
      requires Valid() && consumerOpen
      modifies this`consumerOpen, this`consumerTwoPhase, this`consumerAwakables
      ensures Valid()
      ensures var o := DataPipeModel.ConsumerClose(old(Model()));
        Model() == o.after && woken == o.woken
    {
      consumerOpen := false;
      consumerAwakables := [];
      consumerTwoPhase := None;
      woken := AwakeForStateChange(producerAwakables, ProducerState());
    }
  }
}
