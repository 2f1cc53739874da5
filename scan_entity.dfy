/** The `Scan` record of the `scans` table: its columns, the status enum the
    column accepts, the column defaults and the length bounds of the varchar
    columns. */
module ScanEntity {
  import opened Wrappers
  import opened Json

  /** The three labels of the status enum column. There is no `processing`. */
  datatype ScanStatus = Pending | Completed | Failed

  const UrlMaxLength: nat := 2048
  const UserIdMaxLength: nat := 255

  /** The column default of `status`. */
  const DefaultStatus: ScanStatus := Pending

  /** One row. `id` is the generated uuid; `results` is the nullable jsonb
      column (`None` is SQL NULL); `createdAt` and `updatedAt` are the
      automatically maintained timestamps, in milliseconds. */
  datatype Scan = Scan(
    id: string,
    url: string,
    userId: string,
    status: ScanStatus,
    results: Option<Json>,
    createdAt: int,
    updatedAt: int)

  /** The label the enum column stores for a status. */
  function StatusLabel(s: ScanStatus): (text: string)
    ensures ParseStatus(text) == Some(s)
  {
    match s
    case Pending => "pending"
    case Completed => "completed"
    case Failed => "failed"
  }

  /** The value the enum column makes of a status string: one of its three
      labels, or nothing (the database rejects the write). */
  function ParseStatus(text: string): (r: Option<ScanStatus>)
    ensures r.Some? <==> text == "pending" || text == "completed" || text == "failed"
  {
    if text == "pending" then Some(Pending)
    else if text == "completed" then Some(Completed)
    else if text == "failed" then Some(Failed)
    else None
  }

  /** The labels and the enum are in one-to-one correspondence. */
  lemma StatusLabelRoundTrip(s: ScanStatus, text: string)
    ensures ParseStatus(text) == Some(s) ==> StatusLabel(s) == text
  {
  }

  /** A status the enum column does not have is refused. */
  lemma NoProcessingStatus()
    ensures ParseStatus("processing") == None
  {
  }

  /** The varchar bounds of `url` and `userId`. */
  predicate FitsColumns(url: string, userId: string) {
    |url| <= UrlMaxLength && |userId| <= UserIdMaxLength
  }

  predicate ValidScan(s: Scan) {
    s.id != "" && FitsColumns(s.url, s.userId)
  }

  /** A row as first saved: the given id, url and user, the default status
      and no results. `createdAt` is the time the application sets;
      `updatedAt` is the database's own time of the insert, which the
      `@UpdateDateColumn` default fills in. */
  function NewScan(id: string, url: string, userId: string, createdAt: int, insertedAt: int): (s: Scan)
    requires id != "" && FitsColumns(url, userId)
    ensures ValidScan(s)
    ensures s.id == id && s.url == url && s.userId == userId
    ensures s.status == DefaultStatus && s.results == None
    ensures s.createdAt == createdAt && s.updatedAt == insertedAt
  {
    Scan(id, url, userId, DefaultStatus, None, createdAt, insertedAt)
  }
}
