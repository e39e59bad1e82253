/** The JSON text of a page, field by field in the order of the `Page` record. */
module PageText {
  import opened Basics
  import opened Digits
  import opened Cursor
  import opened Paging

  function Joined(rows: seq<Row>): string {
    if rows == [] then ""
    else if |rows| == 1 then rows[0].text
    else Joined(rows[..|rows| - 1]) + ", " + rows[|rows| - 1].text
  }

  function KeyText(c: Codec, nextKey: Option<string>): string {
    match nextKey
    case None => "null"
    case Some(k) => c.quote(k)
  }

  function ItemsText(c: Codec, rows: seq<Row>, nextKey: Option<string>, truncated: bool): string {
    "{\"items\": [" + Joined(rows) + "], \"next_key\": " + KeyText(c, nextKey)
    + ", \"truncated\": " + (if truncated then "true" else "false")
  }

  function EnvelopeText(c: Codec, schemaVersion: string, sequence: int): string {
    ", \"schema_version\": " + c.quote(schemaVersion)
    + ", \"projected_at_sequence\": " + Integer(sequence) + ", \"bytes\": "
  }

  /** The frame of a request for one job and collection at a pinned sequence. */
  function FrameOf(c: Codec, schemaVersion: string, sequence: int, job: string, collection: string): Frame {
    Frame(
      key => EncodeCursor(c, job, collection, sequence, key),
      (rows, nextKey, truncated) =>
        ItemsText(c, rows, nextKey, truncated) + EnvelopeText(c, schemaVersion, sequence))
  }

  /** The quoted cursor that names this row. */
  function CursorLength(c: Codec, sequence: int, job: string, collection: string, row: Row): nat {
    |c.quote(EncodeCursor(c, job, collection, sequence, row.key))|
  }

  lemma CutSize(c: Codec, schemaVersion: string, sequence: int, job: string, collection: string, rows: seq<Row>)
    requires rows != []
    ensures BaseSize(FrameOf(c, schemaVersion, sequence, job, collection), rows, true)
         == 46 + |Joined(rows)| + CursorLength(c, sequence, job, collection, rows[|rows| - 1])
            + |EnvelopeText(c, schemaVersion, sequence)|
  {
  }

  lemma WholeSize(c: Codec, schemaVersion: string, sequence: int, job: string, collection: string, rows: seq<Row>)
    ensures BaseSize(FrameOf(c, schemaVersion, sequence, job, collection), rows, false)
         == 51 + |Joined(rows)| + |EnvelopeText(c, schemaVersion, sequence)|
  {
  }

  lemma JoinedGrows(rows: seq<Row>, n: nat)
    requires 1 <= n < |rows|
    ensures |Joined(rows[..n + 1])| == |Joined(rows[..n])| + 2 + |rows[n].text|
  {
    assert rows[..n + 1][..n] == rows[..n];
  }

  /** Growth is a condition on the rows alone: each row outweighs what the cursor loses by moving to its key. */
  lemma GrowingFromKeys(c: Codec, schemaVersion: string, sequence: int, job: string, collection: string, rows: seq<Row>)
    requires forall i :: 0 < i < |rows| ==>
      CursorLength(c, sequence, job, collection, rows[i - 1])
        <= |rows[i].text| + 2 + CursorLength(c, sequence, job, collection, rows[i])
    ensures Growing(FrameOf(c, schemaVersion, sequence, job, collection), rows)
  {
    var f := FrameOf(c, schemaVersion, sequence, job, collection);
    forall n | 1 <= n && n + 1 < Maximum(rows)
      ensures BaseSize(f, rows[..n], true) <= BaseSize(f, rows[..n + 1], true)
    {
      CutSize(c, schemaVersion, sequence, job, collection, rows[..n]);
      CutSize(c, schemaVersion, sequence, job, collection, rows[..n + 1]);
      JoinedGrows(rows, n);
    }
  }

  /**
   Three rows: a page of two is hidden behind a refusal exactly when the first key is long enough and the second is
   not.
   */
  lemma LongKeyHidesPage(c: Codec, schemaVersion: string, sequence: int, job: string, collection: string,
      rows: seq<Row>)
    requires |rows| == 3
    ensures
      var f := FrameOf(c, schemaVersion, sequence, job, collection);
      var first := CursorLength(c, sequence, job, collection, rows[0]);
      var second := CursorLength(c, sequence, job, collection, rows[1]);
      first > |rows[1].text| + 2 + second && |rows[2].text| + 7 > second
      <==> exists limit :: Fits(f, rows, limit)(2) && RowCount(f, rows, limit) == 0
  {
    CutSize(c, schemaVersion, sequence, job, collection, rows[..1]);
    CutSize(c, schemaVersion, sequence, job, collection, rows[..2]);
    WholeSize(c, schemaVersion, sequence, job, collection, rows);
    JoinedGrows(rows, 1);
    JoinedGrows(rows, 2);
    assert rows[..3] == rows;
    ShrinkingPageIsRefused(FrameOf(c, schemaVersion, sequence, job, collection), rows);
  }
}
