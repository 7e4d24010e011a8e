/** The size-bounded batching aggregator of the data-flow pipeline.

    A single sequential actor receives extracted image records one at a time,
    keeps them in a FIFO buffer, and hands the buffer on as one batch whenever
    the next record would push the buffered byte total over the threshold.
    When its input completes it hands on whatever is left and closes its output.
 */
module FileAggregateBlock {

  /** One extracted image: its path inside the archive, the name of its temporary
      copy on disk, and its size in bytes (never negative: it is an entry length or 0). */
  datatype ImageFileRecord = ImageFileRecord(fullName: string, tempFileName: string, FileSize: nat)

  /** A batch handed downstream: a snapshot of the buffer, in arrival order. */
  type Batch = seq<ImageFileRecord>

  /** The byte total of a sequence of records, summed front to back; no single
      record weighs more than the sequence that holds it. */
  function Total(s: seq<ImageFileRecord>): (t: nat)
    ensures forall i {:trigger s[i].FileSize} :: 0 <= i < |s| ==> s[i].FileSize <= t
  {
    if s == [] then 0
    else
      var rest := Total(s[1..]);
      assert forall i :: 1 <= i < |s| ==> s[i] == s[1..][i - 1];
      s[0].FileSize + rest
  }

  /** All batches joined in the order they were handed on. */
  function Flatten(batches: seq<Batch>): (records: seq<ImageFileRecord>)
  {
    if batches == [] then [] else batches[0] + Flatten(batches[1..])
  }

  /** The sum of the byte totals of each batch. */
  function BatchTotals(batches: seq<Batch>): (t: nat)
  {
    if batches == [] then 0 else Total(batches[0]) + BatchTotals(batches[1..])
  }

  /** The size bound every batch and the buffer keep: a batch of two or more
      records never exceeds the threshold; only a single record may. */
  predicate WithinThreshold(threshold: int, b: Batch)
  {
    |b| > 1 ==> Total(b) <= threshold
  }

  /** The size bound on every batch of an output. */
  predicate AllWithinThreshold(threshold: int, bs: seq<Batch>)
  {
    forall i :: 0 <= i < |bs| ==> WithinThreshold(threshold, bs[i])
  }

  /** Every batch that holds a record over the threshold holds nothing else. */
  predicate OversizedSentAlone(threshold: int, bs: seq<Batch>)
  {
    forall i, j :: 0 <= i < |bs| && 0 <= j < |bs[i]| && bs[i][j].FileSize > threshold ==>
      bs[i] == [bs[i][j]]
  }

  /** No batch after the first is empty. */
  predicate OnlyFirstEmpty(bs: seq<Batch>)
  {
    forall i :: 0 < i < |bs| ==> bs[i] != []
  }

  /** The flush condition, read backwards over the output: each batch was closed
      because the record that arrived right after it (the first record of everything
      that follows the batch, including the still-pending records) would have
      pushed it over the threshold. A batch followed by nothing is the drained one. */
  predicate ClosedByOverflow(threshold: int, batches: seq<Batch>, pending: seq<ImageFileRecord>)
    decreases |batches|
  {
    batches == [] ||
    (var after := Flatten(batches[1..]) + pending;
     (after != [] ==> Total(batches[0]) + after[0].FileSize > threshold) &&
     ClosedByOverflow(threshold, batches[1..], pending))
  }

  lemma {:induction false} TotalAppend(a: seq<ImageFileRecord>, b: seq<ImageFileRecord>)
    ensures Total(a + b) == Total(a) + Total(b)
  {
    if a == [] {
      assert a + b == b;
    } else {
      assert (a + b)[0] == a[0];
      assert (a + b)[1..] == a[1..] + b;
      TotalAppend(a[1..], b);
    }
  }

  /** A record over the threshold is always sent alone: a batch that keeps the
      size bound and holds such a record is exactly that record. */
  lemma OversizedAlone(threshold: int, b: Batch, i: nat)
    requires i < |b|
    requires WithinThreshold(threshold, b) && b[i].FileSize > threshold
    ensures b == [b[i]]
  {
    assert b[i].FileSize <= Total(b);
  }

  /** Over a whole output: every batch that holds a record over the threshold
      holds nothing else. */
  lemma AllOversizedAlone(threshold: int, bs: seq<Batch>)
    requires AllWithinThreshold(threshold, bs)
    ensures OversizedSentAlone(threshold, bs)
  {
    forall i, j | 0 <= i < |bs| && 0 <= j < |bs[i]| && bs[i][j].FileSize > threshold
      ensures bs[i] == [bs[i][j]]
    {
      OversizedAlone(threshold, bs[i], j);
    }
  }

  /** Sending one more batch that keeps the bound keeps the bound on the output. */
  lemma AllWithinThresholdSnoc(threshold: int, bs: seq<Batch>, b: Batch)
    requires AllWithinThreshold(threshold, bs) && WithinThreshold(threshold, b)
    ensures AllWithinThreshold(threshold, bs + [b])
  {
    assert forall i :: 0 <= i < |bs| ==> (bs + [b])[i] == bs[i];
  }

  /** Sending one more batch keeps later batches non-empty as long as it is
      non-empty or the first. */
  lemma OnlyFirstEmptySnoc(bs: seq<Batch>, b: Batch)
    requires OnlyFirstEmpty(bs) && (b != [] || bs == [])
    ensures OnlyFirstEmpty(bs + [b])
  {
    assert forall i :: 0 <= i < |bs| ==> (bs + [b])[i] == bs[i];
  }

  lemma {:induction false} FlattenAppend(bs: seq<Batch>, cs: seq<Batch>)
    ensures Flatten(bs + cs) == Flatten(bs) + Flatten(cs)
  {
    if bs == [] {
      assert bs + cs == cs;
    } else {
      assert (bs + cs)[0] == bs[0];
      assert (bs + cs)[1..] == bs[1..] + cs;
      FlattenAppend(bs[1..], cs);
    }
  }

  /** Handing on one more batch adds exactly that batch's records at the end. */
  lemma FlattenSnoc(bs: seq<Batch>, b: Batch)
    ensures Flatten(bs + [b]) == Flatten(bs) + b
  {
    FlattenAppend(bs, [b]);
    assert Flatten([b]) == b + Flatten([]);
  }

  /** Size conservation: the byte totals of the batches add up to the byte total
      of all records they hold. */
  lemma {:induction false} SizeConservation(bs: seq<Batch>)
    ensures BatchTotals(bs) == Total(Flatten(bs))
  {
    if bs != [] {
      SizeConservation(bs[1..]);
      TotalAppend(bs[0], Flatten(bs[1..]));
    }
  }

  /** Appending to a non-empty pending buffer keeps the flush condition of the
      batches already handed on: the record that follows each of them is unchanged. */
  lemma {:induction false} ClosedByOverflowEnqueue(threshold: int, bs: seq<Batch>, pending: seq<ImageFileRecord>, r: ImageFileRecord)
    requires pending != []
    requires ClosedByOverflow(threshold, bs, pending)
    ensures ClosedByOverflow(threshold, bs, pending + [r])
  {
    if bs != [] {
      var after := Flatten(bs[1..]) + pending;
      assert Flatten(bs[1..]) + (pending + [r]) == after + [r];
      assert (after + [r])[0] == after[0];
      ClosedByOverflowEnqueue(threshold, bs[1..], pending, r);
    }
  }

  /** Flushing the buffer because `r` overflows it: the buffer becomes the last batch,
      closed by `r`, and `r` alone is pending. The buffer may be empty only while
      nothing has been handed on yet. */
  lemma {:induction false} ClosedByOverflowFlush(threshold: int, bs: seq<Batch>, buffer: Batch, r: ImageFileRecord)
    requires buffer != [] || bs == []
    requires ClosedByOverflow(threshold, bs, buffer)
    requires Total(buffer) + r.FileSize > threshold
    ensures ClosedByOverflow(threshold, bs + [buffer], [r])
  {
    if bs == [] {
      assert [buffer][1..] == [];
      assert Flatten([buffer][1..]) + [r] == [r];
      assert ClosedByOverflow(threshold, [buffer][1..], [r]);
    } else {
      var bs' := bs + [buffer];
      assert bs'[0] == bs[0];
      assert bs'[1..] == bs[1..] + [buffer];
      FlattenSnoc(bs[1..], buffer);
      var after := Flatten(bs[1..]) + buffer;
      assert Flatten(bs'[1..]) + [r] == after + [r];
      assert (after + [r])[0] == after[0];
      ClosedByOverflowFlush(threshold, bs[1..], buffer, r);
    }
  }

  /** Draining: the pending buffer becomes the last batch and nothing is pending;
      each earlier batch is still followed by the same record. */
  lemma {:induction false} ClosedByOverflowDrain(threshold: int, bs: seq<Batch>, buffer: Batch)
    requires ClosedByOverflow(threshold, bs, buffer)
    ensures ClosedByOverflow(threshold, bs + [buffer], [])
  {
    if bs == [] {
      assert [buffer][1..] == [];
      assert ClosedByOverflow(threshold, [buffer][1..], []);
    } else {
      var bs' := bs + [buffer];
      assert bs'[0] == bs[0];
      assert bs'[1..] == bs[1..] + [buffer];
      FlattenSnoc(bs[1..], buffer);
      assert Flatten(bs'[1..]) + [] == Flatten(bs[1..]) + buffer;
      ClosedByOverflowDrain(threshold, bs[1..], buffer);
    }
  }

  /** The first batch is empty exactly when the first record alone exceeds the
      threshold: it then finds an empty buffer and the unguarded test sends it. */
  predicate FirstEmptyIffOversized(threshold: int, received: seq<ImageFileRecord>, emitted: seq<Batch>)
  {
    received != [] ==> (received[0].FileSize > threshold <==> emitted != [] && emitted[0] == [])
  }

  /** The state of the block while its input is open: every record received so far
      is either in an emitted batch or in the buffer, in arrival order; batches keep
      the size bound and the flush condition; only the first batch can be empty. */
  ghost predicate Open(threshold: int, received: seq<ImageFileRecord>, emitted: seq<Batch>, buffer: Batch)
  {
    Flatten(emitted) + buffer == received &&
    AllWithinThreshold(threshold, emitted) &&
    WithinThreshold(threshold, buffer) &&
    ClosedByOverflow(threshold, emitted, buffer) &&
    OnlyFirstEmpty(emitted) &&
    FirstEmptyIffOversized(threshold, received, emitted) &&
    (received == [] <==> buffer == []) &&
    (received == [] ==> emitted == [])
  }

  /** The state after the drain: every record received is in exactly one emitted
      batch, in arrival order, and the batches keep the size bound and the flush condition. */
  ghost predicate Drained(threshold: int, received: seq<ImageFileRecord>, emitted: seq<Batch>)
  {
    Flatten(emitted) == received &&
    AllWithinThreshold(threshold, emitted) &&
    ClosedByOverflow(threshold, emitted, []) &&
    OnlyFirstEmpty(emitted) &&
    FirstEmptyIffOversized(threshold, received, emitted) &&
    (received == [] ==> emitted == [])
  }

  /** A record that overflows the buffer: the buffer (possibly empty) is sent and
      the record alone is kept. */
  lemma OpenFlush(threshold: int, received: seq<ImageFileRecord>, emitted: seq<Batch>, buffer: Batch, r: ImageFileRecord)
    requires Open(threshold, received, emitted, buffer)
    requires Total(buffer) + r.FileSize > threshold
    ensures Open(threshold, received + [r], emitted + [buffer], [r])
  {
    FlattenSnoc(emitted, buffer);
    assert Flatten(emitted + [buffer]) + [r] == received + [r];
    ClosedByOverflowFlush(threshold, emitted, buffer, r);
    AllWithinThresholdSnoc(threshold, emitted, buffer);
    OnlyFirstEmptySnoc(emitted, buffer);
    assert (received + [r])[0] == if received == [] then r else received[0];
  }

  /** A record that fits: nothing is sent and the record joins the buffer. */
  lemma OpenEnqueue(threshold: int, received: seq<ImageFileRecord>, emitted: seq<Batch>, buffer: Batch, r: ImageFileRecord)
    requires Open(threshold, received, emitted, buffer)
    requires Total(buffer) + r.FileSize <= threshold
    ensures Open(threshold, received + [r], emitted, buffer + [r])
  {
    assert Flatten(emitted) + (buffer + [r]) == received + [r];
    TotalAppend(buffer, [r]);
    assert [r][1..] == [];
    if buffer != [] {
      ClosedByOverflowEnqueue(threshold, emitted, buffer, r);
      assert (received + [r])[0] == received[0];
    } else {
      assert received == [] && emitted == [];
      assert (received + [r])[0] == r;
    }
  }

  /** The drain: the buffer is sent iff it is non-empty, and then nothing is pending. */
  lemma OpenDrain(threshold: int, received: seq<ImageFileRecord>, emitted: seq<Batch>, buffer: Batch)
    requires Open(threshold, received, emitted, buffer)
    ensures Drained(threshold, received, if |buffer| > 0 then emitted + [buffer] else emitted)
  {
    if |buffer| > 0 {
      FlattenSnoc(emitted, buffer);
      ClosedByOverflowDrain(threshold, emitted, buffer);
      AllWithinThresholdSnoc(threshold, emitted, buffer);
      OnlyFirstEmptySnoc(emitted, buffer);
      assert received[0] == (Flatten(emitted) + buffer)[0];
    } else {
      assert Flatten(emitted) + buffer == Flatten(emitted);
    }
  }

  /** What a finished run guarantees: the batches carry every byte of the input,
      and a record over the threshold was sent alone. */
  lemma DrainedGuarantees(threshold: int, received: seq<ImageFileRecord>, emitted: seq<Batch>)
    requires Drained(threshold, received, emitted)
    ensures BatchTotals(emitted) == Total(received)
    ensures OversizedSentAlone(threshold, emitted)
  {
    SizeConservation(emitted);
    AllOversizedAlone(threshold, emitted);
  }

  /** The aggregator block: the captured queue `buffer`, the batches already sent to
      the output block (`emitted`), and whether the output block has been completed.
      `received` is the ghost history of every record passed in, in arrival order. */
  class Aggregator {
    const threshold: int
    var buffer: seq<ImageFileRecord>
    var emitted: seq<Batch>
    var completed: bool
    ghost var received: seq<ImageFileRecord>

    /** The buffer is only meaningful while the input is open: the drain sends it
        but, as in the block, does not clear it. */
    ghost predicate Valid()
      reads this
    {
      if completed then Drained(threshold, received, emitted)
      else Open(threshold, received, emitted, buffer)
    }

    /** CreateAggregator: an empty queue and an open output. */
    constructor CreateAggregator(accumulatedFileSize: int)
      ensures Valid()
      ensures threshold == accumulatedFileSize
      ensures buffer == [] && emitted == [] && !completed && received == []
    {
      threshold := accumulatedFileSize;
      buffer := [];
      emitted := [];
      completed := false;
      received := [];
    }

    /** The per-record action: if the buffered total plus the new record's size
        exceeds the threshold, send a snapshot of the buffer (even an empty one)
        and clear it; then enqueue the record. */
    method Process(record: ImageFileRecord)
      requires Valid() && !completed
      modifies this
      ensures Valid() && !completed
      ensures received == old(received) + [record]
      ensures Total(old(buffer)) + record.FileSize > threshold ==>
                emitted == old(emitted) + [old(buffer)] && buffer == [record]
      ensures Total(old(buffer)) + record.FileSize <= threshold ==>
                emitted == old(emitted) && buffer == old(buffer) + [record]
      ensures buffer != [] && buffer[|buffer| - 1] == record
      ensures |buffer| == 1 || Total(buffer) <= threshold
    {
      var currentSize := Total(buffer);
      if currentSize + record.FileSize > threshold {
        OpenFlush(threshold, received, emitted, buffer, record);
        emitted := emitted + [buffer];
        buffer := [];
        assert buffer + [record] == [record];
      } else {
        OpenEnqueue(threshold, received, emitted, buffer, record);
      }
      buffer := buffer + [record];
      received := received + [record];
    }

    /** The completion continuation: send the leftover buffer if it is non-empty,
        then complete the output. */
    method Complete()
      requires Valid() && !completed
      modifies this
      ensures Valid() && completed
      ensures emitted == if |old(buffer)| > 0 then old(emitted) + [old(buffer)] else old(emitted)
      ensures buffer == old(buffer) && received == old(received)
      ensures Flatten(emitted) == received
      ensures BatchTotals(emitted) == Total(received)
      ensures AllWithinThreshold(threshold, emitted)
      ensures OversizedSentAlone(threshold, emitted)
    {
      OpenDrain(threshold, received, emitted, buffer);
      if |buffer| > 0 {
        emitted := emitted + [buffer];
      }
      completed := true;
      DrainedGuarantees(threshold, received, emitted);
    }
  }

  /** Threshold 10, sizes 12 then 3: the oversized first record finds an empty
      buffer and its arrival sends an empty batch; the 3 then flushes the 12 alone,
      and the drain sends the 3. */
  method OversizedFirstScenario() returns (batches: seq<Batch>)
    ensures batches == [[], [ImageFileRecord("a.jpg", "t0", 12)], [ImageFileRecord("b.jpg", "t1", 3)]]
  {
    var big := ImageFileRecord("a.jpg", "t0", 12);
    var small := ImageFileRecord("b.jpg", "t1", 3);
    var agg := new Aggregator.CreateAggregator(10);
    agg.Process(big);
    agg.Process(small);
    agg.Complete();
    batches := agg.emitted;
  }

  /** Threshold 10, sizes 4, 4, 4: the first two fit (8), the third would make 12
      and flushes them; the drain sends the third alone. */
  method ThreeFoursScenario() returns (batches: seq<Batch>)
    ensures batches == [[ImageFileRecord("a.jpg", "t0", 4), ImageFileRecord("b.jpg", "t1", 4)],
                        [ImageFileRecord("c.jpg", "t2", 4)]]
  {
    var r0 := ImageFileRecord("a.jpg", "t0", 4);
    var r1 := ImageFileRecord("b.jpg", "t1", 4);
    var r2 := ImageFileRecord("c.jpg", "t2", 4);
    var agg := new Aggregator.CreateAggregator(10);
    agg.Process(r0);
    agg.Process(r1);
    assert agg.buffer == [r0, r1];
    assert [r0, r1][1..] == [r1] && [r1][1..] == [];
    assert Total([r0, r1]) == 8;
    agg.Process(r2);
    agg.Complete();
    batches := agg.emitted;
  }
}
