/**
 Time-based sampling: reports are read from the driver's stream into a buffer of 256 reports, and handed
 on in batches once at least 16 are saved.
 */
module MetricStream {
  import opened Text

  const MAX_REPORTS: nat := 256
  const MIN_REPORTS: nat := 16

  datatype CompletionCode = Ok | ReadPending | Error

  /** All reports of a sequence of batches, in order. */
  function Flatten<T>(batches: seq<seq<T>>): seq<T> {
    if batches == [] then [] else Flatten(batches[..|batches| - 1]) + batches[|batches| - 1]
  }

  lemma FlattenSnoc<T>(batches: seq<seq<T>>, batch: seq<T>)
    ensures Flatten(batches + [batch]) == Flatten(batches) + batch
  {
    assert (batches + [batch])[..|batches|] == batches;
  }

  lemma FlattenOne<T>(batch: seq<T>)
    ensures Flatten([batch]) == batch
  {
    assert [batch][..0] == [];
  }

  /** Batches in order. */
  lemma {:induction false} FlattenAppend<T>(a: seq<seq<T>>, b: seq<seq<T>>)
    ensures Flatten(a + b) == Flatten(a) + Flatten(b)
  {
    if b == [] {
      assert a + b == a;
    } else {
      hide Flatten;
      var pre, last := b[..|b| - 1], b[|b| - 1];
      assert pre + [last] == b && (a + pre) + [last] == a + b;
      FlattenAppend(a, pre);
      FlattenSnoc(a + pre, last);
      FlattenSnoc(pre, last);
      Regroup(Flatten(a), Flatten(pre), last);
    }
  }

  /** A batch handed on is neither too small nor larger than the buffer. */
  predicate BatchSizes<T>(batches: seq<seq<T>>) {
    forall i :: 0 <= i < |batches| ==> 16 <= |batches[i]| <= 256
  }

  /** So a finite stream makes finitely many batches. */
  lemma {:induction false} BatchesBounded<T>(batches: seq<seq<T>>)
    requires BatchSizes(batches)
    ensures 16 * |batches| <= |Flatten(batches)| <= 256 * |batches|
  {
    if batches != [] {
      BatchesBounded(batches[..|batches| - 1]);
    }
  }

  /** The driver's side: the reports it has yet to hand over, including those still to be sampled. */
  class Stream<Report> {
    var pending: seq<Report>
    /** Whether the driver delivers all that is asked for as long as it has it. */
    const eager: bool
    /** How many reports it was last asked for, at which offset, and how many it delivered. */
    ghost var lastRequested: nat
    ghost var lastOffset: nat
    ghost var lastDelivered: nat

    constructor (reports: seq<Report>, eager: bool)
      ensures pending == reports && this.eager == eager
    {
      pending, this.eager := reports, eager;
      lastRequested, lastOffset, lastDelivered := 0, 0, 0;
    }

    /**
     Delivers at most `requested` reports, however many it likes unless it is eager, and says how many, whatever
     its result code.
     */
    method ReadIoStream(requested: nat, dst: array<Report>, offset: nat) returns (count: nat, res: CompletionCode)
      requires offset + requested <= dst.Length
      modifies this, dst
      ensures count <= requested && count <= |old(pending)|
      ensures eager ==> count == if requested <= |old(pending)| then requested else |old(pending)|
      ensures lastRequested == requested && lastOffset == offset && lastDelivered == count
      ensures pending == old(pending)[count..]
      ensures dst[..] == old(dst[..offset]) + old(pending)[..count] + old(dst[offset + count..])
    {
      count :| 0 <= count <= requested && count <= |pending| && (eager ==> count == requested || count == |pending|);
      res := *;
      forall i | 0 <= i < count {
        dst[offset + i] := pending[i];
      }
      pending := pending[count..];
      lastRequested, lastOffset, lastDelivered := requested, offset, count;
    }
  }

  class Helper<Report(0), Row> {
    const stream: Stream<Report>
    /** What the metrics library computes from a batch: one row per result, none on failure. */
    const calculate: seq<Report> -> seq<Row>
    const streaming: bool
    var savedReportData: array<Report>
    var numSavedReports: nat
    var dump: seq<Row>
    /** Every report there ever was, and the batches handed to the library. */
    ghost const source: seq<Report>
    ghost var batches: seq<seq<Report>>

    ghost function Saved(): seq<Report>
      requires numSavedReports <= savedReportData.Length
      reads this, savedReportData
    {
      savedReportData[..numSavedReports]
    }

    /** Batches, saved reports and pending ones are the whole stream: each report exactly once, in order. */
    ghost predicate Valid()
      reads this, stream, savedReportData
    {
      && numSavedReports <= savedReportData.Length
      && numSavedReports <= 256
      && (savedReportData.Length < 256 ==> numSavedReports == 0)
      && Flatten(batches) + (Saved() + stream.pending) == source
      && BatchSizes(batches)
      && dump == FlatRows(calculate, batches)
    }

    constructor (stream: Stream<Report>, calculate: seq<Report> -> seq<Row>, streaming: bool)
      ensures Valid() && batches == [] && numSavedReports == 0
      ensures this.stream == stream && source == stream.pending && this.streaming == streaming
    {
      this.stream, this.calculate, this.streaming := stream, calculate, streaming;
      savedReportData, numSavedReports, dump := new Report[0], 0, [];
      source, batches := stream.pending, [];
    }

    /** Asks once for all the room there is, and says whether enough is saved to hand on. */
    method SaveReportsFromStream() returns (ready: bool)
      requires Valid()
      modifies this, stream, savedReportData
      ensures Valid() && batches == old(batches)
      ensures savedReportData == old(savedReportData) || fresh(savedReportData)
      ensures if !streaming then !ready && stream.pending == old(stream.pending) && Saved() == old(Saved())
              else ready == (numSavedReports >= 16)
                   && old(Saved()) <= Saved() && Saved() + stream.pending == old(Saved() + stream.pending)
      ensures streaming ==> stream.lastRequested == 256 - old(numSavedReports) && stream.lastOffset == old(numSavedReports)
                            && numSavedReports == old(numSavedReports) + stream.lastDelivered
      ensures streaming && stream.eager ==> numSavedReports == 256 || stream.pending == []
    {
      if !streaming {
        return false;
      }
      if savedReportData.Length < MAX_REPORTS {
        savedReportData := new Report[MAX_REPORTS];
        numSavedReports := 0;
      }
      var reportsToRead := MAX_REPORTS - numSavedReports;
      ghost var before, rest := Saved(), stream.pending;
      var count, res := stream.ReadIoStream(reportsToRead, savedReportData, numSavedReports);
      numSavedReports := numSavedReports + count;
      assert Saved() == before + rest[..count];
      assert Saved() + stream.pending == before + rest;
      ready := numSavedReports >= MIN_REPORTS;
    }

    method ResetSavedReports()
      modifies `numSavedReports
      ensures numSavedReports == 0
    {
      numSavedReports := 0;
    }

    /**
     Drains the stream. It ends with a read that leaves fewer than 16 reports waiting in the buffer; and when the
     driver delivers all it is asked for, nothing waits in the stream.
     */
    method GetCountersFromStream()
      requires Valid()
      modifies this, stream, savedReportData
      ensures Valid() && old(batches) <= batches
      ensures if streaming then numSavedReports < 16 else batches == old(batches)
      ensures streaming ==> numSavedReports == stream.lastDelivered + (256 - stream.lastRequested)
      ensures streaming && stream.eager ==> stream.pending == []
    {
      while true
        invariant Valid() && old(batches) <= batches
        invariant savedReportData == old(savedReportData) || fresh(savedReportData)
        invariant !streaming ==> batches == old(batches)
        decreases numSavedReports + |stream.pending|
      {
        ghost var waiting := |Saved() + stream.pending|;
        var report := SaveReportsFromStream();
        if report {
          assert |Saved() + stream.pending| == waiting;
          dump := dump + calculate(savedReportData[..numSavedReports]);
          HandOn();
        } else {
          break;
        }
      }
    }

    /** The saved reports are now a batch, and the buffer is free again. */
    method HandOn()
      requires numSavedReports <= savedReportData.Length
      requires MIN_REPORTS <= numSavedReports <= MAX_REPORTS
      requires Flatten(batches) + (Saved() + stream.pending) == source && BatchSizes(batches)
      requires dump == FlatRows(calculate, batches) + calculate(Saved())
      modifies `numSavedReports, `batches
      ensures Valid() && batches == old(batches) + [old(Saved())] && numSavedReports == 0
    {
      hide Flatten, FlatRows;
      ghost var batch := Saved();
      FlattenSnoc(batches, batch);
      RowsSnoc(calculate, batches, batch);
      Regroup(Flatten(batches), batch, stream.pending);
      batches := batches + [batch];
      ResetSavedReports();
      assert Saved() + stream.pending == stream.pending;
    }
  }

  /** The rows of all batches, in order. */
  function FlatRows<Report, Row>(calculate: seq<Report> -> seq<Row>, batches: seq<seq<Report>>): seq<Row> {
    if batches == [] then []
    else FlatRows(calculate, batches[..|batches| - 1]) + calculate(batches[|batches| - 1])
  }

  lemma RowsSnoc<Report, Row>(calculate: seq<Report> -> seq<Row>, batches: seq<seq<Report>>, batch: seq<Report>)
    ensures FlatRows(calculate, batches + [batch]) == FlatRows(calculate, batches) + calculate(batch)
  {
    assert (batches + [batch])[..|batches|] == batches;
  }

  lemma RowsOfOne<Report, Row>(calculate: seq<Report> -> seq<Row>, batch: seq<Report>)
    ensures FlatRows(calculate, [batch]) == calculate(batch)
  {
    assert [batch][..0] == [];
  }

  /** Rows come batch by batch, in order. */
  lemma {:induction false} RowsAppend<Report, Row>(calculate: seq<Report> -> seq<Row>, a: seq<seq<Report>>, b: seq<seq<Report>>)
    ensures FlatRows(calculate, a + b) == FlatRows(calculate, a) + FlatRows(calculate, b)
  {
    if b == [] {
      assert a + b == a;
    } else {
      hide FlatRows;
      var pre, last := b[..|b| - 1], b[|b| - 1];
      assert pre + [last] == b && (a + pre) + [last] == a + b;
      RowsAppend(calculate, a, pre);
      RowsSnoc(calculate, a + pre, last);
      RowsSnoc(calculate, pre, last);
      Regroup(FlatRows(calculate, a), FlatRows(calculate, pre), calculate(last));
    }
  }
}
