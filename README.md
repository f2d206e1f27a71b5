# Mojo local data pipe, modelled in Dafny

A Mojo data pipe is a one-way byte channel with a producer end and a consumer end. It
moves whole elements of a fixed size through a circular buffer of fixed capacity. In the
local implementation (`LocalDataPipeImpl`) both ends live in one process. Each end can:

- copy data in or out (`ProducerWriteData`, `ConsumerReadData`, with peek and all-or-none
  modes), discard data (`ConsumerDiscardData`) or query it (`ConsumerQueryData`);
- lease a contiguous run of the buffer for a two-phase write or read (`…BeginWriteData` /
  `…EndWriteData`, `…BeginReadData` / `…EndReadData`);
- register and remove waits on handle signals (READABLE, WRITABLE, PEER_CLOSED), which are
  woken when the end's `{satisfied, satisfiable}` signal state changes;
- close.

The options a pipe is created with are validated first (`ValidateCreateOptions`).

The project has two layers.

- `DataPipeModel` (`pipe_model.dfy`) describes the pipe as a value. The FIFO of committed
  bytes, the start index in the ring, each end's open flag, its two-phase lease and its
  registered waits make up a `PipeState`. There is one function per operation, returning
  the status, the byte count, the bytes handed out, the wake-ups and the next state. The
  decisions each operation makes (status and count) are in `DataPipeRules`. The ring
  arithmetic is in `RingLayout`, and the wait bookkeeping is in `AwakableList`.
- `LocalDataPipeImpl.LocalDataPipe` (`local_data_pipe.dfy`) is the imperative pipe. It
  holds an `array<byte>` ring, a start index, a byte count, the two-phase leases and the
  wait lists. Each method is proved to leave the object in the state, and return the
  results, that the matching model function gives. It copies into and out of the ring in at
  most two pieces around the wrap point.

`PipeProperties` proves what the pipe promises across calls:

- it is a FIFO over any run of operations;
- all-or-none transfers move everything or nothing;
- two-phase transfers are offered only the contiguous run and agree with copying transfers;
- ending a two-phase operation with a bad length commits nothing;
- the signals each end reports agree with what its operations can do;
- closing the producer keeps the data; closing the consumer refuses writes.

`LocalDataPipeScenarios` replays every test of
`mojo/edk/system/local_data_pipe_impl_unittest.cc` on the model. Each test first validates
its options, and the scenario proves that validation keeps them as requested. It then
creates the pipe with the validated options and proves each expected status, count, data,
signal state and wake-up. AllOrNone also follows the caller's read buffer: a refused read
leaves it untouched, and a read overwrites only the bytes it hands out.

## Model

| member | source | states |
|---|---|---|
| DataPipeOptions.ValidateCreateOptions | mojo/edk/system/local_data_pipe_impl_unittest.cc:23-82 | Validated options are valid: element size > 0, capacity > 0 and a multiple of it. A null options pointer gives one-byte elements with the default capacity. A zero element size, or a capacity that is not whole elements, is INVALID_ARGUMENT; otherwise it succeeds iff those hold. A non-zero capacity is kept as requested. |
| DataPipeOptions.DefaultCapacity | mojo/edk/system/local_data_pipe_impl_unittest.cc:66-81 | The default capacity for a zero request is whole elements, at least one element, and within one element below the configured default. `ValidateCreateOptions` promises this value for a zero capacity. |
| DataPipeRules.WriteDecision | mojo/edk/system/local_data_pipe_impl_unittest.cc:757-788 | A write is FAILED_PRECONDITION once the consumer is closed, and INVALID_ARGUMENT for a partial element. All-or-none: OK with the whole request iff it fits, else OUT_OF_RANGE. Otherwise: min(request, free) bytes, SHOULD_WAIT when nothing fits. The count never exceeds the request or the free space. |
| DataPipeRules.ReadDecision | mojo/edk/system/local_data_pipe_impl_unittest.cc:790-898 | A read or discard is INVALID_ARGUMENT for a partial element. All-or-none: OK iff that much is there, otherwise OUT_OF_RANGE (FAILED_PRECONDITION once the producer is closed). Otherwise: min(request, available) bytes; with nothing there it is SHOULD_WAIT (FAILED_PRECONDITION once the producer is closed). |
| DataPipeRules.BeginWriteDecision | mojo/edk/system/local_data_pipe_impl_unittest.cc:917-981 | A two-phase write begin fails once the consumer is closed. All-or-none needs whole elements that fit the contiguous run (INVALID_ARGUMENT / OUT_OF_RANGE). On success it offers the whole run. |
| DataPipeRules.BeginReadDecision | mojo/edk/system/local_data_pipe_impl_unittest.cc:933-1031 | A two-phase read begin in all-or-none mode needs whole elements that fit the contiguous run (INVALID_ARGUMENT; OUT_OF_RANGE, or FAILED_PRECONDITION once the producer is closed). With nothing readable it is SHOULD_WAIT (or FAILED_PRECONDITION). On success it offers the whole run. |
| DataPipeRules.EndDecision | mojo/edk/system/local_data_pipe_impl_unittest.cc:1339-1429 | An end call is FAILED_PRECONDITION iff no two-phase operation is active. It is OK iff the length is whole elements within the offered run. Otherwise it is INVALID_ARGUMENT. |
| DataPipeRules.ProducerWritableIffRoom | mojo/edk/system/local_data_pipe_impl_unittest.cc:106-143 | The producer is WRITABLE iff the consumer is open, no two-phase write is active and an element fits. It can become WRITABLE iff the consumer is open. It is never READABLE. |
| DataPipeRules.ProducerAfterPeerClosed | mojo/edk/system/local_data_pipe_impl_unittest.cc:252-261 | Once the consumer is closed, the producer's satisfied and satisfiable signals are both exactly PEER_CLOSED. |
| DataPipeRules.ConsumerReadableIffData | mojo/edk/system/local_data_pipe_impl_unittest.cc:456-488 | The consumer is READABLE iff an element is there and no two-phase read is active. It can become READABLE iff data remains or the producer is open. PEER_CLOSED is satisfied iff the producer is closed. It is never WRITABLE. |
| AwakableList.AddDecision | mojo/edk/system/local_data_pipe_impl_unittest.cc:106-121 | Adding a wait is ALREADY_EXISTS when a wanted signal is already satisfied. It is FAILED_PRECONDITION when none can ever be. Only otherwise is it OK. |
| AwakableList.AwakeForStateChange | mojo/edk/system/local_data_pipe_impl_unittest.cc:185-192 | A state change wakes at most one waiter per registration, and each waiter is woken with OK or FAILED_PRECONDITION. |
| AwakableList.AwakeComplete | mojo/edk/system/local_data_pipe_impl_unittest.cc:229-236 | Every registration whose wait is now decided is woken, with its own context and the decided result. |
| AwakableList.AwakeSound | mojo/edk/system/local_data_pipe_impl_unittest.cc:292-299 | Every wake-up comes from a registration whose wait is decided, with that registration's context and result. |
| AwakableList.AddRefusesWhatWouldWakeAtOnce | mojo/edk/system/local_data_pipe_impl_unittest.cc:375-383 | Adding a wait succeeds iff registering it would not wake it at once. It is ALREADY_EXISTS iff it would wake with OK, and FAILED_PRECONDITION iff it would wake with FAILED_PRECONDITION. |
| AwakableList.Remove | mojo/edk/system/local_data_pipe_impl_unittest.cc:136-143 | Removing an awakable drops exactly its registrations and keeps all the others. |
| RingLayout.MaxNumBytesToWrite | mojo/edk/system/local_data_pipe_impl_unittest.cc:1075-1085 | The contiguous free run at the write index is min(free space, distance to the buffer's end). It is positive whenever the pipe is not full. |
| RingLayout.MaxNumBytesToRead | mojo/edk/system/local_data_pipe_impl_unittest.cc:1095-1105 | The contiguous readable run is all the data unless the data wraps, in which case it runs to the buffer's end. It is positive whenever data is there. |
| RingLayout.AppendHolds | mojo/edk/system/local_data_pipe_impl_unittest.cc:1087-1094 | Copying new bytes to the write index, in one or two pieces around the wrap point, leaves the ring holding the old FIFO followed by the new bytes. |
| RingLayout.ReadHolds | mojo/edk/system/local_data_pipe_impl_unittest.cc:1107-1118 | Copying the first n bytes out from the start, in one or two pieces around the wrap point, yields the FIFO's first n bytes. |
| RingLayout.ConsumeHolds | mojo/edk/system/local_data_pipe_impl_unittest.cc:1066-1073 | Moving the start n places on (wrapping) leaves the ring holding the FIFO without its first n bytes. |
| RingLayout.CommitHolds | mojo/edk/system/local_data_pipe_impl_unittest.cc:940-950 | Committing n bytes of a two-phase write lease leaves the ring holding the old FIFO followed by those bytes. |
| DataPipeModel.Create | mojo/edk/system/local_data_pipe_impl_unittest.cc:96-114 | A new pipe is empty with both ends open. The producer is WRITABLE and can be WRITABLE or PEER_CLOSED. The consumer has nothing satisfied and can become READABLE or PEER_CLOSED. |
| DataPipeModel.Consume | mojo/edk/system/local_data_pipe_impl_unittest.cc:826-835 | Taking n whole elements off the front keeps the pipe valid, drops exactly the first n bytes, advances the start by n (wrapping) and ends any two-phase read. |
| DataPipeModel.ProducerWriteData | mojo/edk/system/local_data_pipe_impl_unittest.cc:123-130 | A write keeps the pipe valid. Its status and count are WriteDecision's on the free space. The FIFO gains exactly the accepted bytes, in order, and nothing else changes. The consumer's waits are woken only if its state changed. |
| DataPipeModel.ConsumerReadData | mojo/edk/system/local_data_pipe_impl_unittest.cc:144-183 | A read keeps the pipe valid. Its status and count are ReadDecision's on the data. It hands out the oldest bytes (all of them when the count is the whole FIFO). A peek leaves the pipe unchanged; otherwise exactly those bytes leave. The producer's waits are woken only on a state change. |
| DataPipeModel.ConsumerDiscardData | mojo/edk/system/local_data_pipe_impl_unittest.cc:385-390 | A discard follows ReadDecision as a read does. It drops the oldest bytes without handing any out, and keeps the pipe valid. |
| DataPipeModel.ConsumerQueryData | mojo/edk/system/local_data_pipe_impl_unittest.cc:765-782 | The query reports the FIFO's length, which is whole elements and never more than the capacity. |
| DataPipeModel.ProducerBeginWriteData | mojo/edk/system/local_data_pipe_impl_unittest.cc:194-206 | A two-phase write begin keeps the pipe valid and follows BeginWriteDecision on the contiguous free run. On success it records a lease at the write index for the offered length; on failure no lease. Nothing else changes. |
| DataPipeModel.ProducerEndWriteData | mojo/edk/system/local_data_pipe_impl_unittest.cc:640-690 | An end write always ends the lease and keeps the pipe valid. Its status is EndDecision's. On OK the first n leased bytes join the FIFO; otherwise nothing is committed. The producer's waits are woken if it is WRITABLE again, and the consumer's on a state change. |
| DataPipeModel.ConsumerBeginReadData | mojo/edk/system/local_data_pipe_impl_unittest.cc:213-228 | A two-phase read begin keeps the pipe valid and follows BeginReadDecision on the contiguous readable run. It shows the oldest bytes of that run and records a lease at the start. |
| DataPipeModel.ConsumerEndReadData | mojo/edk/system/local_data_pipe_impl_unittest.cc:527-564 | An end read always ends the lease. Its status is EndDecision's. On OK exactly n bytes are consumed; otherwise nothing is. The consumer's waits are woken if it is READABLE again, and the producer's on a state change. |
| DataPipeModel.ProducerAddAwakable | mojo/edk/system/local_data_pipe_impl_unittest.cc:106-135 | Adding a wait on the producer reports the producer's signal state and AddDecision's status. The wait is registered only on OK. |
| DataPipeModel.ProducerRemoveAwakable | mojo/edk/system/local_data_pipe_impl_unittest.cc:136-143 | Removing an awakable from the producer drops its waits and reports the producer's signal state. |
| DataPipeModel.ConsumerAddAwakable | mojo/edk/system/local_data_pipe_impl_unittest.cc:346-383 | Adding a wait on the consumer reports the consumer's signal state and AddDecision's status. The wait is registered only on OK. |
| DataPipeModel.ConsumerRemoveAwakable | mojo/edk/system/local_data_pipe_impl_unittest.cc:356-367 | Removing an awakable from the consumer drops its waits and reports the consumer's signal state. |
| DataPipeModel.ProducerClose | mojo/edk/system/local_data_pipe_impl_unittest.cc:304-326 | Closing the producer keeps the committed bytes and cancels a two-phase write. It drops the producer's waits and wakes the consumer's waits with its new state. |
| DataPipeModel.ConsumerClose | mojo/edk/system/local_data_pipe_impl_unittest.cc:280-302 | Closing the consumer cancels a two-phase read, drops the consumer's waits and wakes the producer's waits with its new state. |
| LocalDataPipeImpl.CopyInTwoPieces | mojo/edk/system/local_data_pipe_impl_unittest.cc:1087-1094 | Copying into the ring in two pieces writes the first piece at the index and the rest at the buffer's start, changing nothing else. |
| LocalDataPipeImpl.CopyOutOfRing | mojo/edk/system/local_data_pipe_impl_unittest.cc:1107-1118 | Copying out of the ring fills the caller's first n bytes with the FIFO's first n bytes, and leaves the rest of the caller's buffer untouched. |
| LocalDataPipeImpl.LocalDataPipe.constructor | mojo/edk/system/local_data_pipe_impl_unittest.cc:23-82 | A new pipe object is valid and is the model's `Create` of its options, over a fresh buffer. |
| LocalDataPipeImpl.LocalDataPipe.ProducerWriteData | mojo/edk/system/local_data_pipe_impl_unittest.cc:123-130 | The object's status, count, wake-ups and new state are exactly the model's `ProducerWriteData`, and it stays valid. |
| LocalDataPipeImpl.LocalDataPipe.Append | mojo/edk/system/local_data_pipe_impl_unittest.cc:1059-1064 | Appending stores the bytes after the FIFO in the ring, wrapping. The object stays valid, its FIFO becomes the old FIFO plus the bytes, and no other field changes. |
| LocalDataPipeImpl.LocalDataPipe.ConsumerReadData | mojo/edk/system/local_data_pipe_impl_unittest.cc:144-183 | The object's results and new state are exactly the model's `ConsumerReadData`. The caller's buffer receives the bytes handed out, and the rest of it is untouched. |
| LocalDataPipeImpl.LocalDataPipe.ConsumerDiscardData | mojo/edk/system/local_data_pipe_impl_unittest.cc:385-390 | The object's results and new state are exactly the model's `ConsumerDiscardData`. |
| LocalDataPipeImpl.LocalDataPipe.ConsumerQueryData | mojo/edk/system/local_data_pipe_impl_unittest.cc:765-782 | The query is OK and reports the model's `ConsumerQueryData`, changing nothing. |
| LocalDataPipeImpl.LocalDataPipe.ProducerBeginWriteData | mojo/edk/system/local_data_pipe_impl_unittest.cc:194-206 | The object's results and lease are exactly the model's `ProducerBeginWriteData`. The buffer region offered is the lease. |
| LocalDataPipeImpl.LocalDataPipe.StoreIntoWriteLease | mojo/edk/system/local_data_pipe_impl_unittest.cc:1225-1228 | A store into the write lease changes only that buffer cell, and leaves the FIFO intact. |
| LocalDataPipeImpl.LocalDataPipe.ProducerEndWriteData | mojo/edk/system/local_data_pipe_impl_unittest.cc:640-690 | The object's status, wake-ups and new state are exactly the model's `ProducerEndWriteData` of what the producer stored in the lease. |
| LocalDataPipeImpl.LocalDataPipe.ConsumerBeginReadData | mojo/edk/system/local_data_pipe_impl_unittest.cc:213-228 | The object's results and lease are exactly the model's `ConsumerBeginReadData`. The buffer region offered holds the bytes shown. |
| LocalDataPipeImpl.LocalDataPipe.ConsumerEndReadData | mojo/edk/system/local_data_pipe_impl_unittest.cc:527-564 | The object's status, wake-ups and new state are exactly the model's `ConsumerEndReadData`. |
| LocalDataPipeImpl.LocalDataPipe.ProducerAddAwakable | mojo/edk/system/local_data_pipe_impl_unittest.cc:106-135 | The object's status, reported state and waits are exactly the model's `ProducerAddAwakable`. |
| LocalDataPipeImpl.LocalDataPipe.ProducerRemoveAwakable | mojo/edk/system/local_data_pipe_impl_unittest.cc:136-143 | The object's reported state and waits are exactly the model's `ProducerRemoveAwakable`. |
| LocalDataPipeImpl.LocalDataPipe.ConsumerAddAwakable | mojo/edk/system/local_data_pipe_impl_unittest.cc:346-383 | The object's status, reported state and waits are exactly the model's `ConsumerAddAwakable`. |
| LocalDataPipeImpl.LocalDataPipe.ConsumerRemoveAwakable | mojo/edk/system/local_data_pipe_impl_unittest.cc:356-367 | The object's reported state and waits are exactly the model's `ConsumerRemoveAwakable`. |
| LocalDataPipeImpl.LocalDataPipe.ProducerClose | mojo/edk/system/local_data_pipe_impl_unittest.cc:304-326 | The object's wake-ups and new state are exactly the model's `ProducerClose`. |
| LocalDataPipeImpl.LocalDataPipe.ConsumerClose | mojo/edk/system/local_data_pipe_impl_unittest.cc:280-302 | The object's wake-ups and new state are exactly the model's `ConsumerClose`. |
| PipeProperties.Step | mojo/edk/system/local_data_pipe_impl_unittest.cc:1059-1118 | Every write, read, peek, discard and two-phase write or read on a pipe with both ends open and no lease leaves it so again, with element size and capacity unchanged. It loses, duplicates and reorders no byte: held plus entered equals left plus held after. |
| PipeProperties.RunIsFifo | mojo/edk/system/local_data_pipe_impl_unittest.cc:1039-1120 | Over any run of operations, the bytes held at the start followed by every byte that entered equal every byte that left followed by the bytes held at the end. The pipe is a FIFO. |
| PipeProperties.ReadsArePrefixOfWrites | mojo/edk/system/local_data_pipe_impl_unittest.cc:1039-1120 | From an empty pipe, the bytes read out over any run are a prefix of the bytes written in. The pipe holds exactly the rest, never more than its capacity. |
| PipeProperties.PeekThenReadAgree | mojo/edk/system/local_data_pipe_impl_unittest.cc:1281-1297 | A peek changes nothing and wakes nobody. A read of the same request right after reports the same status and count and hands out the same bytes. |
| PipeProperties.QueryIsWhatAReadTakes | mojo/edk/system/local_data_pipe_impl_unittest.cc:821-835 | The queried count is what a read of the whole capacity would hand out, and those bytes are all the data. |
| PipeProperties.AllOrNoneWriteIsAllOrNothing | mojo/edk/system/local_data_pipe_impl_unittest.cc:757-819 | An all-or-none write of whole elements succeeds iff the request fits, and then writes all of it. Otherwise it is OUT_OF_RANGE and leaves the pipe exactly as it was, waking nobody. |
| PipeProperties.AllOrNoneReadIsAllOrNothing | mojo/edk/system/local_data_pipe_impl_unittest.cc:790-872 | An all-or-none read of whole elements succeeds iff that much is there, and then takes the oldest bytes. Otherwise it is OUT_OF_RANGE (FAILED_PRECONDITION once the producer is closed) and leaves the pipe exactly as it was. |
| PipeProperties.TwoPhaseWriteOffersContiguousRun | mojo/edk/system/local_data_pipe_impl_unittest.cc:1075-1085 | A successful two-phase write lease starts at the write index and stays inside the buffer. It never exceeds the free space, and is all of it unless the free space wraps. |
| PipeProperties.TwoPhaseReadOffersContiguousRun | mojo/edk/system/local_data_pipe_impl_unittest.cc:1095-1105 | A successful two-phase read lease starts at the start index, stays inside the buffer and shows the oldest bytes. It is all the data unless the data wraps. |
| PipeProperties.TwoPhaseWriteAgreesWithWrite | mojo/edk/system/local_data_pipe_impl_unittest.cc:940-950 | Ending a two-phase write with n > 0 whole elements leaves the same pipe as a copying write of those n bytes, and both succeed. |
| PipeProperties.TwoPhaseReadAgreesWithRead | mojo/edk/system/local_data_pipe_impl_unittest.cc:960-972 | Ending a two-phase read with n > 0 whole elements leaves the same pipe as a copying read of n bytes. That read hands out the first n bytes the lease showed. |
| PipeProperties.BadEndWriteCommitsNothing | mojo/edk/system/local_data_pipe_impl_unittest.cc:1348-1382 | Ending a two-phase write with too many bytes or a partial element is INVALID_ARGUMENT. It commits nothing but ends the write, so ending again is FAILED_PRECONDITION and changes nothing. |
| PipeProperties.BadEndReadConsumesNothing | mojo/edk/system/local_data_pipe_impl_unittest.cc:1405-1434 | Ending a two-phase read with too many bytes or a partial element is INVALID_ARGUMENT. It consumes nothing but ends the read, so ending again is FAILED_PRECONDITION. |
| PipeProperties.WritableIffWriteSucceeds | mojo/edk/system/local_data_pipe_impl_unittest.cc:116-143 | The producer reports WRITABLE iff a copying write of one element would succeed. That write then appends the whole element. |
| PipeProperties.ReadableIffReadSucceeds | mojo/edk/system/local_data_pipe_impl_unittest.cc:356-383 | The consumer reports READABLE iff a copying read of one element would succeed. That read hands out the oldest element. |
| PipeProperties.ProducerCloseKeepsData | mojo/edk/system/local_data_pipe_impl_unittest.cc:1267-1315 | After the producer closes, the data stays readable. The consumer sees PEER_CLOSED and is READABLE iff data remains. Once drained, its state is exactly PEER_CLOSED and a read is FAILED_PRECONDITION. |
| PipeProperties.ConsumerCloseRefusesWrites | mojo/edk/system/local_data_pipe_impl_unittest.cc:1232-1244 | After the consumer closes, the producer's state is exactly PEER_CLOSED. A write and a two-phase write begin are then FAILED_PRECONDITION and change nothing. |
| PipeProperties.RemoveAppended | mojo/edk/system/local_data_pipe_impl_unittest.cc:136-143 | Removing an awakable from a wait list with a registration of it appended gives the same list as removing it from the original. |
| PipeProperties.ProducerAddThenRemove | mojo/edk/system/local_data_pipe_impl_unittest.cc:131-143 | Adding a wait on the producer and then removing that awakable leaves the same waits as removing it straight away. |
| PipeProperties.ConsumerAddThenRemove | mojo/edk/system/local_data_pipe_impl_unittest.cc:356-367 | Adding a wait on the consumer and then removing that awakable leaves the same waits as removing it straight away. |
| LocalDataPipeScenarios.Creation | mojo/edk/system/local_data_pipe_impl_unittest.cc:23-82 | All four option sets validate: null, 1/1000, 4/4000 and 100 with the default capacity for 100-byte elements. Each pipe made from them closes cleanly with no wake-ups. |
| LocalDataPipeScenarios.ValidatedPipe | mojo/edk/system/local_data_pipe_impl_unittest.cc:1044-1057 | A test's options validate to exactly themselves (so WrapAround's capacity stays 100), and the pipe created with them is empty and open at both ends. |
| LocalDataPipeScenarios.BasicProducerWaiting | mojo/edk/system/local_data_pipe_impl_unittest.cc:87-264 | The test's statuses, counts, data, signal states and wake-ups for producer waits through writes, peeks, reads, two-phase operations and the consumer closing. |
| LocalDataPipeScenarios.PeerClosedWaiting | mojo/edk/system/local_data_pipe_impl_unittest.cc:266-327 | Closing either end wakes the other end's PEER_CLOSED wait with OK. The state is then exactly PEER_CLOSED. |
| LocalDataPipeScenarios.BasicConsumerWaiting | mojo/edk/system/local_data_pipe_impl_unittest.cc:340-491 | The test's statuses, counts, data and signal states for consumer waits through writes, discards, peeks, reads and the producer closing. |
| LocalDataPipeScenarios.BasicConsumerTwoPhaseWaiting | mojo/edk/system/local_data_pipe_impl_unittest.cc:493-583 | The same for two-phase writes and reads, ending with an active consumer wait woken by the producer closing. |
| LocalDataPipeScenarios.BasicTwoPhaseWaiting | mojo/edk/system/local_data_pipe_impl_unittest.cc:587-737 | During a two-phase write the producer is not WRITABLE, and during a two-phase read the consumer is not READABLE. Empty ends restore both. |
| LocalDataPipeScenarios.AllOrNone | mojo/edk/system/local_data_pipe_impl_unittest.cc:744-902 | The test's all-or-none write, read and discard results, queried counts and data, before and after the producer closes. After each of the five reads, the caller's buffer is as the test expects: untouched after a refusal, and the handed-out bytes over its old content after a read. |
| LocalDataPipeScenarios.TwoPhaseAllOrNone | mojo/edk/system/local_data_pipe_impl_unittest.cc:904-1033 | The test's all-or-none two-phase results: refusals on the empty pipe, the offer of the whole buffer, and the wrap that refuses a six-element write and a ten-element read. |
| LocalDataPipeScenarios.WrapAround | mojo/edk/system/local_data_pipe_impl_unittest.cc:1039-1120 | Across the wrap point, two-phase offers are 80 and 90 bytes. Copying transfers move 90 and 100 bytes, and the data comes back in order. |
| LocalDataPipeScenarios.CloseProducerFirst | mojo/edk/system/local_data_pipe_impl_unittest.cc:1138-1192 | Closing the producer during two-phase operations: the consumer still ends its read and reads the rest. |
| LocalDataPipeScenarios.CloseConsumerFirst | mojo/edk/system/local_data_pipe_impl_unittest.cc:1194-1247 | Closing the consumer: ending the producer's two-phase write is OK, while a write and a two-phase write begin are FAILED_PRECONDITION. |
| LocalDataPipeScenarios.CloseDuringTwoPhaseWrite | mojo/edk/system/local_data_pipe_impl_unittest.cc:1249-1265 | Both ends close while a two-phase write of the whole buffer is active, with no wake-ups. |
| LocalDataPipeScenarios.CloseThenReadEmpty | mojo/edk/system/local_data_pipe_impl_unittest.cc:1267-1318 | After the producer closes, the data is peeked and read. Then read, two-phase read and discard are all FAILED_PRECONDITION. |
| LocalDataPipeScenarios.InvalidEndWrites | mojo/edk/system/local_data_pipe_impl_unittest.cc:1321-1382 | The test's end-write results (FAILED_PRECONDITION, INVALID_ARGUMENT, FAILED_PRECONDITION), with the pipe staying empty. |
| LocalDataPipeScenarios.InvalidEndReads | mojo/edk/system/local_data_pipe_impl_unittest.cc:1384-1438 | The test's end-read results, with the one element staying there. |

## Left out

- Only `mojo/edk/system/local_data_pipe_impl_unittest.cc` is part of this model; the
  implementation files (`data_pipe.cc`, `local_data_pipe_impl.cc`, `awakable_list.cc`) are
  not. Where the tests say nothing, the model follows the data pipe's documented behaviour.
  - "Nothing can move now" is SHOULD_WAIT.
  - Waking a wait does not remove it.
  - A non-all-or-none two-phase begin ignores the requested length.
- Waiting (`Waiter::Wait`), timeouts, threads, locks and reference counting are left out.
  A wake-up is returned as a `Wakeup` value naming the awakable, its result and its
  context.
- `UserPointer` marshalling and the options' `struct_size` and `flags` are left out. So is
  the maximum capacity check.
- Calls that the data pipe turns away before the local implementation sees them are
  excluded by `requires`, not modelled as results:
  - an operation on an end that is already closed;
  - a second operation on an end whose own two-phase operation is active (BUSY).
- 32-bit widths of counts and lengths are not modelled; all counts are unbounded naturals.
- The configured default capacity is a parameter of `ValidateCreateOptions`, not a
  constant.
- The buffer is allocated when the pipe is created, not lazily on first use.
- DataPipeOptions.ValidateCreateOptions: a capacity that is not a multiple of the element
  size is refused with INVALID_ARGUMENT rather than rounded down to a whole number of
  elements. The tests never pass such a capacity.
- LocalDataPipeScenarios: the test scenarios replay on the value model `DataPipeModel`; the
  object model is tied to it operation by operation.
- DataPipeModel.ConsumerReadData: that the caller's buffer is untouched beyond the bytes
  handed out is stated only on `LocalDataPipe.ConsumerReadData`. The AllOrNone scenario
  rebuilds the buffer from the handed-out bytes the same way (`AfterRead`).
- PipeProperties.Step: a run of operations covers both ends open and no lease pending
  between operations. Two-phase operations are begun and ended within one step, and a
  two-phase begin asks for whatever the pipe offers.
- PipeProperties.ConsumerCloseRefusesWrites: closing the consumer while a two-phase write
  is active is covered by `LocalDataPipeScenarios.CloseConsumerFirst`, not by the lemma.
