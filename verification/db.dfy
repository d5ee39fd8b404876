/**
 * The batch staging buffer (`Inserter`): a bounded FIFO of video records that
 * `flush` drains, under a lock, into one bulk write to the column store.
 *
 * The store is a sink that records every bulk call it receives and may fail
 * any of them.  The asyncio lock is taken to make the drain one atomic step,
 * so `Drain` below is that step and `WriteBatch` is the write after it.
 */
module Staging {
  import opened Common
  import opened Records

  // ---------------------------------------------------------------------------
  // Row shaping for the bulk insert
  // ---------------------------------------------------------------------------

  /** One value of a bulk-insert row; an absent thumbnail is sent as NULL. */
  datatype Cell = Text(text: string) | Null

  /** One bulk-insert call: target table, one row per record, column names. */
  datatype BulkInsert = BulkInsert(table: string, rows: seq<seq<Cell>>, columns: seq<string>)

  const TableName: string := "video_information"

  /**
   * The column names `model_dump().keys()` yields, assumed to be the record's
   * fields in the keyword order of their construction, and no others.
   */
  const ColumnNames: seq<string> :=
    ["channel_id", "channel_title", "id", "title", "description", "thumbnail", "created_at"]

  /** Reads a record back from a row laid out as `ColumnNames` says; `None` for a malformed row. */
  function RecordOf(row: seq<Cell>): Option<VideoData> {
    if |row| != |ColumnNames| || !row[0].Text? || !row[1].Text? || !row[2].Text? ||
       !row[3].Text? || !row[4].Text? || !row[6].Text?
    then None
    else Some(VideoData(
      channelId := row[0].text,
      channelTitle := row[1].text,
      id := row[2].text,
      title := row[3].text,
      description := row[4].text,
      thumbnail := if row[5].Text? then Some(row[5].text) else None,
      createdAt := row[6].text))
  }

  /** The row of one record (`model_dump().values()`): one cell per column, from which the record is recovered. */
  function RowOf(v: VideoData): (row: seq<Cell>)
    ensures |row| == |ColumnNames|
    ensures RecordOf(row) == Some(v)
  {
    [Text(v.channelId), Text(v.channelTitle), Text(v.id), Text(v.title), Text(v.description),
     if v.thumbnail.Some? then Text(v.thumbnail.value) else Null,
     Text(v.createdAt)]
  }

  /** One row per record of a batch, in batch order. */
  function Rows(batch: seq<VideoData>): (rows: seq<seq<Cell>>)
    ensures |rows| == |batch|
    ensures forall i :: 0 <= i < |batch| ==> rows[i] == RowOf(batch[i])
  {
    if batch == [] then [] else Rows(batch[..|batch| - 1]) + [RowOf(batch[|batch| - 1])]
  }

  /** Every record of a batch can be read back from its row. */
  lemma RowsRoundTrip(batch: seq<VideoData>, i: nat)
    requires i < |batch|
    ensures RecordOf(Rows(batch)[i]) == Some(batch[i])
  {
  }

  /** The bulk call `insert_async` makes for a non-empty batch. */
  function BulkCall(batch: seq<VideoData>): BulkInsert
    requires |batch| > 0
  {
    BulkInsert(TableName, Rows(batch), ColumnNames)
  }

  /** The bulk calls one flush of `batch` makes: none for an empty batch, else exactly one. */
  function FlushCalls(batch: seq<VideoData>): seq<BulkInsert> {
    if batch == [] then [] else [BulkCall(batch)]
  }

  // ---------------------------------------------------------------------------
  // The column store
  // ---------------------------------------------------------------------------

  /** The column-store client: records each bulk call and whether it was accepted. */
  class Store {
    var calls: seq<BulkInsert>
    var accepted: seq<BulkInsert>
    var closed: bool

    constructor ()
      ensures calls == [] && accepted == [] && !closed
    {
      calls := [];
      accepted := [];
      closed := false;
    }

    /** A bulk insert that may fail for reasons outside the model. */
    method Insert(call: BulkInsert) returns (ok: bool)
      modifies this
      ensures calls == old(calls) + [call]
      ensures accepted == if ok then old(accepted) + [call] else old(accepted)
      ensures closed == old(closed)
    {
      ok :| true;
      calls := calls + [call];
      if ok {
        accepted := accepted + [call];
      }
    }

    method Close()
      modifies this
      ensures closed && calls == old(calls) && accepted == old(accepted)
    {
      closed := true;
    }
  }

  // ---------------------------------------------------------------------------
  // The staging buffer
  // ---------------------------------------------------------------------------

  /**
   * `Inserter`: the staging queue (an `asyncio.Queue(maxsize=maxSize)`, which
   * is unbounded when `maxSize <= 0`) and the store client, present only
   * inside `async with`.
   */
  class Inserter {
    const tableName: string := TableName
    const interval: int
    const maxSize: int
    var queue: seq<VideoData>
    var client: Store?

    /** The queue never holds more than its capacity. */
    ghost predicate Valid()
      reads this
    {
      maxSize > 0 ==> |queue| <= maxSize
    }

    /** `Queue.full()`: a put would have to wait. */
    predicate Full()
      reads this
    {
      maxSize > 0 && |queue| >= maxSize
    }

    constructor (interval: int := 60, maxSize: int := 150_000)
      ensures Valid()
      ensures tableName == TableName && this.interval == interval && this.maxSize == maxSize
      ensures queue == [] && client == null
    {
      this.interval := interval;
      this.maxSize := maxSize;
      queue := [];
      client := null;
    }

    /** `__aenter__`: installs a connected client (table creation is not modelled). */
    method Enter(store: Store)
      requires !store.closed
      modifies this
      ensures client == store && queue == old(queue)
    {
      client := store;
    }

    /** `__aexit__`: closes and drops the client; a second call does nothing. */
    method Exit()
      modifies this, client
      ensures client == null && queue == old(queue)
      ensures old(client) != null ==> old(client).closed && old(client).calls == old(client.calls)
      ensures old(client) == null ==> unchanged(this)
    {
      if client != null {
        client.Close();
        client := null;
      }
    }

    /** `insert_wait`: appends at the tail; a put into a full queue waits, so callers reach it only when there is room. */
    method InsertWait(record: VideoData)
      requires Valid() && !Full()
      modifies this
      ensures Valid()
      ensures queue == old(queue) + [record] && client == old(client)
    {
      queue := queue + [record];
    }

    /** `get_nowait` on a non-empty queue: removes the head. */
    method GetNowait() returns (x: VideoData)
      requires queue != []
      modifies this
      ensures x == old(queue)[0] && queue == old(queue)[1..] && client == old(client)
    {
      x := queue[0];
      queue := queue[1..];
    }

    /**
     * `insert_async`: one bulk call with one row per record.  The column names
     * are read from the first record, so the batch must not be empty.  Without
     * a client the call raises, which `ok == false` stands for.
     */
    method InsertAsync(batch: seq<VideoData>) returns (ok: bool)
      requires |batch| > 0
      modifies client
      ensures old(client) == null ==> !ok
      ensures old(client) != null ==>
        client.calls == old(client.calls) + [BulkCall(batch)] &&
        client.accepted == (if ok then old(client.accepted) + [BulkCall(batch)] else old(client.accepted))
    {
      if client == null {
        return false;
      }
      ok := client.Insert(BulkInsert(tableName, Rows(batch), ColumnNames));
    }

    /** The locked part of `flush`: takes exactly the `qsize()` records present, head first. */
    method Drain() returns (batch: seq<VideoData>)
      requires Valid()
      modifies this
      ensures Valid()
      ensures batch == old(queue) && queue == [] && client == old(client)
    {
      batch := [];
      var size := |queue|;
      for i := 0 to size
        invariant batch == old(queue)[..i] && queue == old(queue)[i..]
        invariant client == old(client)
      {
        var x := GetNowait();
        batch := batch + [x];
      }
      assert old(queue)[..size] == old(queue);
    }

    /** The unlocked part of `flush`: no call for an empty batch, else one bulk call whose failure is swallowed. */
    method WriteBatch(batch: seq<VideoData>)
      modifies client
      ensures old(client) != null ==>
        client.calls == old(client.calls) + FlushCalls(batch) &&
        (client.accepted == old(client.accepted) || client.accepted == old(client.accepted) + FlushCalls(batch))
    {
      if batch == [] {
        return;
      }
      var ok := InsertAsync(batch);
    }

    /**
     * `flush`: drains the queue and writes what it drained.  The queue is empty
     * afterwards whether or not the write succeeds: a failed batch is not put back.
     */
    method Flush()
      requires Valid()
      modifies this, client
      ensures Valid()
      ensures queue == [] && client == old(client)
      ensures old(client) != null ==>
        client.calls == old(client.calls) + FlushCalls(old(queue)) &&
        (client.accepted == old(client.accepted) || client.accepted == old(client.accepted) + FlushCalls(old(queue)))
    {
      var batch := Drain();
      WriteBatch(batch);
    }

    /** `run`, cut to `ticks` timer ticks: a flush per tick; only the first can find records. */
    method RunTicks(ticks: nat)
      requires Valid()
      modifies this, client
      ensures Valid() && client == old(client)
      ensures queue == if ticks == 0 then old(queue) else []
      ensures old(client) != null ==>
        client.calls == old(client.calls) + (if ticks == 0 then [] else FlushCalls(old(queue))) &&
        (client.accepted == old(client.accepted) ||
         (ticks > 0 && client.accepted == old(client.accepted) + FlushCalls(old(queue))))
    {
      for t := 0 to ticks
        invariant Valid() && client == old(client)
        invariant queue == if t == 0 then old(queue) else []
        invariant old(client) != null ==>
          client.calls == old(client.calls) + (if t == 0 then [] else FlushCalls(old(queue))) &&
          (client.accepted == old(client.accepted) ||
           (t > 0 && client.accepted == old(client.accepted) + FlushCalls(old(queue))))
      {
        Flush();
      }
    }
  }

  // ---------------------------------------------------------------------------
  // `Singleton`: one instance per class
  // ---------------------------------------------------------------------------

  /** The key of `Inserter` in the instance cache. */
  const InserterClass: string := "Inserter"

  /** The metaclass's class-level cache `_instances`. */
  class Singleton {
    var instances: map<string, Inserter>

    constructor ()
      ensures instances == map[]
    {
      instances := map[];
    }

    /** `Inserter(...)`: builds the instance on the first call only; later calls return it and ignore their arguments. */
    method NewInserter(interval: int := 60, maxSize: int := 150_000) returns (ins: Inserter)
      modifies this
      ensures InserterClass in old(instances) ==> ins == old(instances)[InserterClass] && instances == old(instances)
      ensures InserterClass !in old(instances) ==>
        fresh(ins) && ins.interval == interval && ins.maxSize == maxSize && ins.queue == [] && ins.client == null &&
        instances == old(instances)[InserterClass := ins]
    {
      if InserterClass !in instances {
        var created := new Inserter(interval, maxSize);
        instances := instances[InserterClass := created];
      }
      ins := instances[InserterClass];
    }
  }

  /** Constructing `Inserter` twice in one process: the same object, configured by the first call. */
  method ConstructTwice(interval1: int, maxSize1: int, interval2: int, maxSize2: int) returns (a: Inserter, b: Inserter)
    ensures a == b
    ensures b.interval == interval1 && b.maxSize == maxSize1
  {
    var cache := new Singleton();
    a := cache.NewInserter(interval1, maxSize1);
    b := cache.NewInserter(interval2, maxSize2);
  }

  /**
   * A record put while a flush is writing its batch is not in that batch: it
   * stays queued for the next flush.
   */
  method EnqueueDuringWrite(first: VideoData, second: VideoData) returns (written: seq<BulkInsert>, left: seq<VideoData>)
    ensures written == [BulkCall([first])]
    ensures left == [second]
  {
    var store := new Store();
    var inserter := new Inserter();
    inserter.Enter(store);
    inserter.InsertWait(first);
    var batch := inserter.Drain();
    inserter.InsertWait(second);
    inserter.WriteBatch(batch);
    written := store.calls;
    left := inserter.queue;
  }
}
