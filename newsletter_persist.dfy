/**
 * The write of the send results to `newsletter_send_results`: one row per result, inserted
 * in chunks of 100; a chunk the database refuses is skipped, an exception ends the write.
 */
module NewsletterPersist {
  import opened Js
  import opened Batching
  import opened NewsletterMessage
  import opened NewsletterDispatch

  const ChunkSize: nat := 100

  /** A `newsletter_send_results` row; `None` is SQL `null`. */
  datatype SendResultRow = SendResultRow(
    newsletterSlug: string,
    recipientEmail: string,
    recipientFirstName: Option<string>,
    recipientLastName: Option<string>,
    unsubscribeToken: Option<string>,
    success: bool,
    responseText: Option<string>)

  /** The database's answer to one chunk: stored, refused with an error, or an exception. */
  datatype InsertReply = Inserted | InsertFailed(error: string) | InsertThrew(message: string)

  type Inserter = seq<SendResultRow> -> InsertReply

  /** The table afterwards, and the chunks that were offered to the database, in order. */
  datatype Persisted = Persisted(table: seq<SendResultRow>, attempted: seq<seq<SendResultRow>>)

  /** The `toPersist` entry of one result. */
  function RowOf(slug: string, r: SendResult): SendResultRow {
    SendResultRow(slug, r.email, r.subscriber.firstName, r.subscriber.lastName, r.subscriber.unsubscribeToken,
      r.success, r.error)
  }

  /** `results.map(...)`: one row per result, in order. */
  function ToPersist(slug: string, results: seq<SendResult>): (rows: seq<SendResultRow>)
    ensures |rows| == |results|
    ensures forall i :: 0 <= i < |rows| ==>
              && rows[i].newsletterSlug == slug
              && rows[i].recipientEmail == results[i].email
              && rows[i].recipientFirstName == results[i].subscriber.firstName
              && rows[i].recipientLastName == results[i].subscriber.lastName
              && (rows[i].success <==> results[i].success)
              && rows[i].responseText == results[i].error
              && rows[i].unsubscribeToken == results[i].subscriber.unsubscribeToken
  {
    seq(|results|, i requires 0 <= i < |results| => RowOf(slug, results[i]))
  }

  /** What inserting the chunks in order does: the specification of `Persist`. */
  function PersistChunks(table: seq<SendResultRow>, chunks: seq<seq<SendResultRow>>, insert: Inserter): Persisted
    decreases |chunks|
  {
    if chunks == [] then Persisted(table, [])
    else match insert(chunks[0])
      case Inserted =>
        var r := PersistChunks(table + chunks[0], chunks[1..], insert);
        Persisted(r.table, [chunks[0]] + r.attempted)
      case InsertFailed(_) =>
        var r := PersistChunks(table, chunks[1..], insert);
        Persisted(r.table, [chunks[0]] + r.attempted)
      case InsertThrew(_) => Persisted(table, [chunks[0]])
  }

  /** The work done so far, followed by what the remaining chunks do. */
  function Then(attempted: seq<seq<SendResultRow>>, r: Persisted): Persisted {
    Persisted(r.table, attempted + r.attempted)
  }

  /** The loop invariant of `Persist`: the chunks before row `i` are done, the rest is still to do. */
  ghost predicate WrittenThenRest(table: seq<SendResultRow>, rows: seq<SendResultRow>, insert: Inserter, i: nat,
                               current: seq<SendResultRow>, attempted: seq<seq<SendResultRow>>) {
    PersistChunks(table, Chunks(rows, ChunkSize), insert)
    == Then(attempted, PersistChunks(current, Chunks(From(rows, i), ChunkSize), insert))
  }

  /** A chunk that raises ends the write with that chunk as the last one offered. */
  lemma StepThrown(table: seq<SendResultRow>, rows: seq<SendResultRow>, insert: Inserter, i: nat,
                   current: seq<SendResultRow>, attempted: seq<seq<SendResultRow>>)
    requires i < |rows| && WrittenThenRest(table, rows, insert, i, current, attempted)
    requires insert(Slice(rows, i, ChunkSize)).InsertThrew?
    ensures PersistChunks(table, Chunks(rows, ChunkSize), insert)
            == Persisted(current, attempted + [Slice(rows, i, ChunkSize)])
  {
    ChunksStep(rows, i, ChunkSize);
  }

  /** A chunk stored or refused keeps `WrittenThenRest` one chunk further on. */
  lemma StepContinue(table: seq<SendResultRow>, rows: seq<SendResultRow>, insert: Inserter, i: nat,
                     current: seq<SendResultRow>, attempted: seq<seq<SendResultRow>>)
    requires i < |rows| && WrittenThenRest(table, rows, insert, i, current, attempted)
    requires !insert(Slice(rows, i, ChunkSize)).InsertThrew?
    ensures var chunk := Slice(rows, i, ChunkSize);
      WrittenThenRest(table, rows, insert, i + ChunkSize,
                   if insert(chunk).Inserted? then current + chunk else current, attempted + [chunk])
  {
    var chunk := Slice(rows, i, ChunkSize);
    ChunksStep(rows, i, ChunkSize);
    var rest := Chunks(From(rows, i + ChunkSize), ChunkSize);
    assert ([chunk] + rest)[1..] == rest;
    var next := if insert(chunk).Inserted? then current + chunk else current;
    var r := PersistChunks(next, rest, insert);
    assert attempted + ([chunk] + r.attempted) == (attempted + [chunk]) + r.attempted;
  }

  /** The `for (let i = 0; i < toPersist.length; i += CHUNK)` loop inside its `try`. */
  method Persist(table: seq<SendResultRow>, rows: seq<SendResultRow>, insert: Inserter) returns (p: Persisted)
    ensures p == PersistChunks(table, Chunks(rows, ChunkSize), insert)
  {
    var current := table;
    var attempted: seq<seq<SendResultRow>> := [];
    var i := 0;
    assert From(rows, 0) == rows;
    while i < |rows|
      invariant WrittenThenRest(table, rows, insert, i, current, attempted)
      decreases |rows| - i
    {
      var chunk := Slice(rows, i, ChunkSize);
      var reply := insert(chunk);
      if reply.InsertThrew? {
        StepThrown(table, rows, insert, i, current, attempted);
        p := Persisted(current, attempted + [chunk]);
        return;
      }
      StepContinue(table, rows, insert, i, current, attempted);
      if reply.Inserted? {
        current := current + chunk;
      }
      attempted := attempted + [chunk];
      i := i + ChunkSize;
    }
    assert From(rows, i) == [];
    assert attempted + [] == attempted;
    p := Persisted(current, attempted);
  }

  /** No chunk raises an exception. */
  predicate NoneThrows(chunks: seq<seq<SendResultRow>>, insert: Inserter) {
    forall k :: 0 <= k < |chunks| ==> !insert(chunks[k]).InsertThrew?
  }

  /** Every chunk is stored. */
  predicate AllInserted(chunks: seq<seq<SendResultRow>>, insert: Inserter) {
    forall k :: 0 <= k < |chunks| ==> insert(chunks[k]).Inserted?
  }

  // ---------------------------------------------------------------------------
  // Properties

  /** Rows already in the table stay, in place; at most the offered rows are added, after them. */
  lemma {:induction false} PersistOnlyAppends(table: seq<SendResultRow>, chunks: seq<seq<SendResultRow>>, insert: Inserter)
    ensures var p := PersistChunks(table, chunks, insert);
      table <= p.table && |p.table| <= |table| + |Flatten(chunks)|
    ensures Flatten(PersistChunks(table, chunks, insert).attempted) <= Flatten(chunks)
    decreases |chunks|
  {
    if chunks != [] {
      var head, tail := chunks[0], chunks[1..];
      assert Flatten(chunks) == head + Flatten(tail);
      match insert(head)
      case Inserted =>
        PersistOnlyAppends(table + head, tail, insert);
        var r := PersistChunks(table + head, tail, insert);
        assert Flatten([head] + r.attempted) == head + Flatten(r.attempted) by {
          assert ([head] + r.attempted)[1..] == r.attempted;
        }
      case InsertFailed(_) =>
        PersistOnlyAppends(table, tail, insert);
        var r := PersistChunks(table, tail, insert);
        assert Flatten([head] + r.attempted) == head + Flatten(r.attempted) by {
          assert ([head] + r.attempted)[1..] == r.attempted;
        }
      case InsertThrew(_) =>
        assert Flatten([head]) == head by {
          assert [head][1..] == [];
        }
    }
  }

  /** The chunks among `attempted` that the database stored, in order. */
  function Stored(attempted: seq<seq<SendResultRow>>, insert: Inserter): seq<seq<SendResultRow>> {
    if attempted == [] then []
    else (if insert(attempted[0]).Inserted? then [attempted[0]] else []) + Stored(attempted[1..], insert)
  }

  /** The chunks are offered in order, up to and including the first one that raises. */
  lemma {:induction false} OffersUntilThrow(table: seq<SendResultRow>, chunks: seq<seq<SendResultRow>>, insert: Inserter)
    ensures var p := PersistChunks(table, chunks, insert);
      && p.attempted <= chunks
      && (forall k :: 0 <= k < |p.attempted| - 1 ==> !insert(p.attempted[k]).InsertThrew?)
      && (|p.attempted| < |chunks| ==> p.attempted != [] && insert(p.attempted[|p.attempted| - 1]).InsertThrew?)
    decreases |chunks|
  {
    if chunks != [] {
      var head, tail := chunks[0], chunks[1..];
      if !insert(head).InsertThrew? {
        var next := if insert(head).Inserted? then table + head else table;
        var r := PersistChunks(next, tail, insert);
        OffersUntilThrow(next, tail, insert);
        var a := PersistChunks(table, chunks, insert).attempted;
        assert a == [head] + r.attempted;
        assert forall k :: 1 <= k < |a| ==> a[k] == r.attempted[k - 1];
      }
    }
  }

  /** Whatever is refused or raised, the table gains exactly the rows of the stored chunks, in order. */
  lemma {:induction false} TableGainsStored(table: seq<SendResultRow>, chunks: seq<seq<SendResultRow>>, insert: Inserter)
    ensures var p := PersistChunks(table, chunks, insert);
      p.table == table + Flatten(Stored(p.attempted, insert))
    decreases |chunks|
  {
    if chunks != [] {
      var head, tail := chunks[0], chunks[1..];
      var a := PersistChunks(table, chunks, insert).attempted;
      match insert(head)
      case InsertThrew(_) =>
        assert a == [head] && a[1..] == [];
      case Inserted =>
        var r := PersistChunks(table + head, tail, insert);
        TableGainsStored(table + head, tail, insert);
        assert a[1..] == r.attempted;
        var rest := Flatten(Stored(r.attempted, insert));
        assert Stored(a, insert) == [head] + Stored(r.attempted, insert);
        assert ([head] + Stored(r.attempted, insert))[1..] == Stored(r.attempted, insert);
        assert table + head + rest == table + (head + rest);
      case InsertFailed(_) =>
        var r := PersistChunks(table, tail, insert);
        TableGainsStored(table, tail, insert);
        assert a[1..] == r.attempted;
        assert Stored(a, insert) == [] + Stored(r.attempted, insert) == Stored(r.attempted, insert);
    }
  }

  /** A refused chunk does not stop the later ones: without exceptions every chunk is offered. */
  lemma {:induction false} FailuresDoNotStop(table: seq<SendResultRow>, chunks: seq<seq<SendResultRow>>, insert: Inserter)
    requires NoneThrows(chunks, insert)
    ensures PersistChunks(table, chunks, insert).attempted == chunks
    decreases |chunks|
  {
    if chunks != [] {
      assert !insert(chunks[0]).InsertThrew?;
      var tail := chunks[1..];
      assert NoneThrows(tail, insert) by {
        forall k | 0 <= k < |tail| ensures !insert(tail[k]).InsertThrew? {
          assert tail[k] == chunks[k + 1];
        }
      }
      FailuresDoNotStop(if insert(chunks[0]).Inserted? then table + chunks[0] else table, tail, insert);
    }
  }

  /** When every chunk is stored, the table gains exactly the offered rows, in order. */
  lemma {:induction false} AllStored(table: seq<SendResultRow>, chunks: seq<seq<SendResultRow>>, insert: Inserter)
    requires AllInserted(chunks, insert)
    ensures PersistChunks(table, chunks, insert).table == table + Flatten(chunks)
    decreases |chunks|
  {
    if chunks != [] {
      assert insert(chunks[0]).Inserted?;
      var tail := chunks[1..];
      assert AllInserted(tail, insert) by {
        forall k | 0 <= k < |tail| ensures insert(tail[k]).Inserted? {
          assert tail[k] == chunks[k + 1];
        }
      }
      AllStored(table + chunks[0], tail, insert);
      assert table + chunks[0] + Flatten(tail) == table + (chunks[0] + Flatten(tail));
    }
  }

  /**
   * The write of a campaign's results: the chunks offered have at most 100 rows each, and
   * when the database stores them all the table ends with every result row, in order.
   */
  lemma PersistResults(table: seq<SendResultRow>, slug: string, results: seq<SendResult>, insert: Inserter)
    ensures var chunks := Chunks(ToPersist(slug, results), ChunkSize);
      forall k :: 0 <= k < |chunks| ==> 0 < |chunks[k]| <= ChunkSize
    ensures var chunks := Chunks(ToPersist(slug, results), ChunkSize);
      NoneThrows(chunks, insert) ==> PersistChunks(table, chunks, insert).attempted == chunks
    ensures var chunks := Chunks(ToPersist(slug, results), ChunkSize);
      AllInserted(chunks, insert) ==> PersistChunks(table, chunks, insert).table == table + ToPersist(slug, results)
  {
    var rows := ToPersist(slug, results);
    var chunks := Chunks(rows, ChunkSize);
    ChunksSizes(rows, ChunkSize);
    ChunksFlatten(rows, ChunkSize);
    if NoneThrows(chunks, insert) {
      FailuresDoNotStop(table, chunks, insert);
    }
    if AllInserted(chunks, insert) {
      AllStored(table, chunks, insert);
    }
  }
}
