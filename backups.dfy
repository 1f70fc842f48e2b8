/** GET /api/list-backups: one request to the backup table, mapped to a simpler format. */
module Backups {
  import opened Json
  import opened Paging
  import opened Cache

  /** The entry the dashboard receives; an absent field is left out of the JSON (None). */
  datatype Backup = Backup(id: string, date: Option<Value>, backupId: Option<Value>)

  /** `data.records.map(record => ({ id, date, backupId }))`. */
  function ToBackups(records: seq<Record>): (backups: seq<Backup>)
    ensures |backups| == |records|
    ensures forall i :: 0 <= i < |records| ==>
      && backups[i].id == records[i].id
      && backups[i].date == FieldOf(records[i], "Date")
      && backups[i].backupId == FieldOf(records[i], "Id du backup")
  {
    seq(|records|, i requires 0 <= i < |records| =>
      Backup(records[i].id, FieldOf(records[i], "Date"), FieldOf(records[i], "Id du backup")))
  }

  /** The mapping is done record by record: it commutes with concatenation, so the page
      order of the backup table is the order of the list. */
  lemma ToBackupsAppend(a: seq<Record>, b: seq<Record>)
    ensures ToBackups(a + b) == ToBackups(a) + ToBackups(b)
  {
    var l, r := ToBackups(a + b), ToBackups(a) + ToBackups(b);
    assert |l| == |r|;
    forall i | 0 <= i < |l| ensures l[i] == r[i] {
      if i < |a| {
        assert (a + b)[i] == a[i];
      } else {
        assert (a + b)[i] == b[i - |a|];
      }
    }
  }

  /** The handler: missing credentials and failures are errors; a rejected answer is passed on
      with its status; an ok answer becomes the list. The response is one page; its offset,
      if any, is not followed. */
  function ListBackups(credentials: bool, response: Page): (r: Reply<seq<Backup>>)
    ensures !credentials ==> r == Failure(500, Message(ConfigMissing))
    ensures r.Answer? <==> credentials && response.Page?
    ensures r.Answer? ==> r.body == ToBackups(response.records)
    ensures credentials && response.PageRejected? ==>
      r == Failure(response.status, Upstream("Airtable list-backups error", response.status, response.body))
    ensures credentials && response.PageFailed? ==> r == Failure(500, Message(InternalMessage(response.reason)))
  {
    if !credentials then Failure(500, Message(ConfigMissing))
    else
      match response
      case PageFailed(reason) => Failure(500, Message(InternalMessage(reason)))
      case PageRejected(status, body) => Failure(status, Upstream("Airtable list-backups error", status, body))
      case Page(records, _) => Answer(ToBackups(records))
  }
}
