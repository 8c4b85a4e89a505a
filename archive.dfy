/**
 * Normalising the Wayback Machine CDX index response.  The index answers with a JSON table whose first
 * row is a header; every further row is [timestamp, original, statuscode, mimetype].  A row that is
 * shorter than four cells yields `undefined` for the missing cells, as indexing a JavaScript array does.
 */
module Archive {
  import opened Common

  /** Prefix of every archived-page address. */
  const SnapshotBase: string := "http://web.archive.org/web"

  /** How a snapshot address asks the archive to render the page: as archived, or the raw bytes (`id_`). */
  datatype Rendering = Wrapped | Identity

  /** What the CDX query produced: the table, or the message of the error the HTTP client threw. */
  datatype CdxReply = Rows(table: seq<seq<string>>) | Failed(reason: string)

  /** A table cell that may be `undefined`. */
  type Cell = Option<string>

  datatype Snapshot = Snapshot(timestamp: Cell, url: Cell, statusCode: Cell, mimeType: Cell, snapshotUrl: string)

  /** `row[i]`. */
  function CellAt(row: seq<string>, i: nat): Cell
  {
    if i < |row| then Some(row[i]) else None
  }

  /** A cell as a template literal interpolates it: `undefined` reads "undefined". */
  function CellText(c: Cell): string
  {
    match c
    case Some(s) => s
    case None => "undefined"
  }

  /** The archive address of the capture at `timestamp` of `original`. */
  function SnapshotUrl(timestamp: Cell, original: Cell, rendering: Rendering): (u: string)
    ensures rendering == Wrapped ==> u == SnapshotBase + "/" + CellText(timestamp) + "/" + CellText(original)
    ensures rendering == Identity ==> u == SnapshotBase + "/" + CellText(timestamp) + "id_/" + CellText(original)
  {
    var marker := match rendering case Wrapped => "" case Identity => "id_";
    SnapshotBase + "/" + CellText(timestamp) + marker + "/" + CellText(original)
  }

  /** One data row of the CDX table as a snapshot record. */
  function RowToSnapshot(row: seq<string>, rendering: Rendering): Snapshot
  {
    Snapshot(CellAt(row, 0), CellAt(row, 1), CellAt(row, 2), CellAt(row, 3),
             SnapshotUrl(CellAt(row, 0), CellAt(row, 1), rendering))
  }

  /** `table.slice(1).map(...)`: the header row is dropped and every other row becomes a snapshot. */
  function Normalize(table: seq<seq<string>>, rendering: Rendering): (snaps: seq<Snapshot>)
    ensures |snaps| == if |table| == 0 then 0 else |table| - 1
    ensures forall i :: 0 <= i < |snaps| ==>
      && snaps[i].timestamp == CellAt(table[i + 1], 0)
      && snaps[i].url == CellAt(table[i + 1], 1)
      && snaps[i].statusCode == CellAt(table[i + 1], 2)
      && snaps[i].mimeType == CellAt(table[i + 1], 3)
      && snaps[i].snapshotUrl == SnapshotUrl(snaps[i].timestamp, snaps[i].url, rendering)
  {
    if |table| <= 1 then [] else [RowToSnapshot(table[1], rendering)] + Normalize(table[1..], rendering)
  }

  /** `snapshots.slice(0, 5)`: what a create response shows. */
  function FirstFive(snaps: seq<Snapshot>): (shown: seq<Snapshot>)
    ensures |shown| == Min(5, |snaps|)
    ensures shown <= snaps
  {
    snaps[..Min(5, |snaps|)]
  }
}
