# Size-bounded batching aggregator of DataFlowDemo

DataFlowDemo extracts the `.jpg` entries of a zip archive, groups them into
batches of bounded byte size, re-zips every batch and uploads it to blob storage.
This project models the one stateful algorithm in that pipeline: the aggregator
block built by `FileAggregateBlock.CreateAggregator`. It runs as a single
sequential actor. It keeps a FIFO queue of `ImageFileRecord`s. For each incoming
record it computes the queue's byte total. If that total plus the record's size
exceeds the threshold, it sends a snapshot of the queue downstream and clears the
queue. Then it enqueues the record. When its input completes, it sends the
leftover queue if that is non-empty and completes its output.

`FileAggregateBlock.dfy` (module `FileAggregateBlock`) holds:

- `ImageFileRecord`: a datatype with `fullName`, `tempFileName` and `FileSize`,
  the record declared at `DataFlowDemo/FileAggregateBlock.cs:8`. The size is a
  `nat` because it is always an entry length or 0 (`DataFlowDemo/Worker.cs:46`).
- `Total`, `Flatten` and `BatchTotals`: pure functions over records and batches.
  `WithinThreshold` and `ClosedByOverflow` are predicates that state the size bound
  and the flush condition.
- `Aggregator`: a class that stands for the block.
  - The captured queue is the field `buffer`.
  - The batches sent to the output block are the field `emitted`. Each one is a
    value snapshot, like `ToArray`, so a later `Clear` cannot change it.
  - The output's completion is the field `completed`.
  - A ghost history `received` records every input in arrival order.
  - `Valid()` is the invariant that every method keeps. While the input is open
    it is `Open`, a predicate over the received history, the batches and the
    buffer. After the drain it is `Drained`, over the history and the batches.
    The drain sends the buffer but does not clear it, as in the block. One lemma
    per step (`OpenFlush`, `OpenEnqueue`, `OpenDrain`) proves that the step keeps
    the invariant.
  - The named constructor `CreateAggregator`, the per-record action `Process` and
    the completion continuation `Complete` mirror the source.
- Two client methods pass two fixed inputs through the aggregator at threshold 10
  (sizes 12, 3 and sizes 4, 4, 4) and prove exactly which batches come out.

What is proved, as invariants kept by every step and as `Complete`'s
postconditions:

- **Conservation and order.** Joining the emitted batches and the pending buffer
  gives exactly the arrival sequence. After `Complete`, the emitted batches alone
  give it. No record is lost, duplicated or reordered.
- **Size conservation.** After `Complete`, the byte totals of the batches add up to
  the byte total of all input.
- **Size bound.** A batch or buffer with two or more records never exceeds the
  threshold. Only a batch of one record can.
- **Flush condition.** Each emitted batch is followed in the arrival order by a
  record that would have pushed it over the threshold. The one exception is the
  batch sent by the drain.
- **Empty-batch quirk.** Only the first batch can be empty. It is empty exactly
  when the first record alone exceeds the threshold.
- **Per-step behaviour.** `Process` sends exactly one batch (the old buffer) iff
  `Total(buffer) + size > threshold`, and the buffer then becomes `[record]`.
  Otherwise nothing is sent and the record is appended. Either way the buffer ends
  non-empty, ends with the record, and is a singleton or within the threshold.
- **Drain.** `Complete` sends the buffer iff it is non-empty. Both `Process` and
  `Complete` require the output to be still open, so nothing is sent after
  completion.

The flush test at `DataFlowDemo/FileAggregateBlock.cs:21` has no non-empty guard.
So when the first record alone exceeds the threshold, the code sends an empty
array and then enqueues the record. With threshold 10, sizes `[12, 3]` come out as
`[]`, `[12]`, `[3]` (`OversizedFirstScenario`). Because the test includes the
incoming record, every batch of two or more records is within the threshold as a
whole, and a record over the threshold always travels alone (`OversizedAlone`).

## Model

| member | source | states |
|---|---|---|
| `FileAggregateBlock.Aggregator.CreateAggregator` | DataFlowDemo/FileAggregateBlock.cs:10-14 | a fresh aggregator has the given threshold, an empty queue, no batches sent, an open output, and satisfies the invariant |
| `FileAggregateBlock.Aggregator.Process` | DataFlowDemo/FileAggregateBlock.cs:16-29 | sends exactly the old buffer as one batch and leaves `[record]` iff total plus the record's size exceeds the threshold; otherwise sends nothing and appends the record; the buffer ends non-empty, ends with the record, and is a singleton or within the threshold; conservation, order, size bound, flush condition and the empty-first-batch rule are preserved |
| `FileAggregateBlock.Aggregator.Complete` | DataFlowDemo/FileAggregateBlock.cs:31-40 | sends the buffer iff it is non-empty, then completes the output; afterwards the batches joined equal the arrival sequence, their byte totals sum to the input's total, every batch of two or more records is within the threshold, and a record over the threshold is always sent alone |
| `FileAggregateBlock.OpenFlush` | DataFlowDemo/FileAggregateBlock.cs:20-28 | when the buffered total plus the incoming size exceeds the threshold, sending the buffer (even an empty one) and keeping only the record keeps the open-state invariant |
| `FileAggregateBlock.OpenEnqueue` | DataFlowDemo/FileAggregateBlock.cs:20-28 | when the incoming record fits, appending it to the buffer without sending keeps the open-state invariant |
| `FileAggregateBlock.OpenDrain` | DataFlowDemo/FileAggregateBlock.cs:31-39 | sending the buffer iff it is non-empty turns the open-state invariant into the drained one: every record received is in exactly one batch, in order |
| `FileAggregateBlock.DrainedGuarantees` | DataFlowDemo/FileAggregateBlock.cs:20-35 | after the drain the batch totals sum to the input's total, and a record over the threshold was sent alone |
| `FileAggregateBlock.TotalAppend` | DataFlowDemo/FileAggregateBlock.cs:20 | the byte total of a concatenation is the sum of the byte totals, which is how the buffered total grows by one `Enqueue` |
| `FileAggregateBlock.Total` | DataFlowDemo/FileAggregateBlock.cs:20 | the sum of `FileSize` over the queue, front to back; no record's size exceeds the total of a sequence that holds it |
| `FileAggregateBlock.OversizedAlone` | DataFlowDemo/FileAggregateBlock.cs:21-28 | a batch that keeps the size bound and holds a record over the threshold consists of that record alone |
| `FileAggregateBlock.AllOversizedAlone` | DataFlowDemo/FileAggregateBlock.cs:21-35 | in any output whose batches keep the size bound, a batch holding a record over the threshold holds only that record |
| `FileAggregateBlock.FlattenAppend` | DataFlowDemo/FileAggregateBlock.cs:23-35 | joining the output after two runs of sends is the join of each, in order |
| `FileAggregateBlock.FlattenSnoc` | DataFlowDemo/FileAggregateBlock.cs:23 | sending one more batch adds exactly its records, in queue order, at the end of the joined output |
| `FileAggregateBlock.SizeConservation` | DataFlowDemo/FileAggregateBlock.cs:20-35 | the byte totals of the batches sum to the byte total of all records they hold |
| `FileAggregateBlock.ClosedByOverflowEnqueue` | DataFlowDemo/FileAggregateBlock.cs:28 | enqueuing onto a non-empty buffer keeps the flush condition of every batch already sent |
| `FileAggregateBlock.ClosedByOverflowFlush` | DataFlowDemo/FileAggregateBlock.cs:21-28 | when the incoming record overflows the buffer, sending the buffer and keeping only the record keeps the flush condition, now also for the batch just sent |
| `FileAggregateBlock.ClosedByOverflowDrain` | DataFlowDemo/FileAggregateBlock.cs:33-35 | sending the leftover buffer on completion keeps the flush condition of every earlier batch |
| `FileAggregateBlock.OversizedFirstScenario` | DataFlowDemo/FileAggregateBlock.cs:16-40 | with threshold 10, sizes 12 then 3 produce the batches `[]`, `[12]`, `[3]` |
| `FileAggregateBlock.ThreeFoursScenario` | DataFlowDemo/FileAggregateBlock.cs:16-40 | with threshold 10, sizes 4, 4, 4 produce the batches `[4, 4]`, `[4]` |

## Left out

- Process: does not model 64-bit arithmetic. Sizes and the threshold are unbounded integers. In the source, `buffer.Sum` over `long` is checked and would throw on overflow, and `currentSize + record.FileSize` is unchecked and would wrap. Neither can happen for realistic file sizes.
- Process, Complete: the `await outBlock.SendAsync(...)` suspension, the bounded capacities of 1 on both inner blocks (DataFlowDemo/FileAggregateBlock.cs:14, 29) and `DataflowBlock.Encapsulate` are TPL Dataflow library behaviour. A send is modelled as an append to `emitted` that completes at once.
- Process, Complete: both require the output to be open. The library guarantees this: no action runs after the input block has completed, and the continuation runs once.
- Complete: it runs whether the input block finished normally or faulted (`ContinueWith` without options). Fault and cancellation propagation is library behaviour and is not modelled.
- Logging (DataFlowDemo/FileAggregateBlock.cs:24, 36): side output only.
- The rest of the pipeline in DataFlowDemo/Worker.cs is not part of this model: the wiring, parallelism and bounded queues, zip extraction with GUID temp names, the `.jpg` filter, re-zipping, `File.Delete` and the blob upload. These are concurrency or file and network I/O through foreign libraries. The only thing taken from it is that a record's size is `entry.Length` or 0, hence a `nat`, and that the threshold is a plain `int` (10 MB there).
- The object-pool policy in DataFlowDemo/ZipArchivePooledObjectPolicy.cs is not part of this model. Its retention behaviour lives in an external library.
