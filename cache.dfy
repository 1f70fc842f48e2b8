/** The backend's read-through cache, as a state machine over the `dataCache` record.

    Each handler of the backend is described here by a function from the cache state
    (and the outside world's answers: the clock, whether credentials are configured,
    the upstream responses) to its reply and the next cache state. The mutable
    `DataCache` object and the handler methods proved against these functions are in
    module Server. The event loop is made explicit: `refreshDataInBackground` runs
    synchronously up to its first upstream request (BeginRefresh) and resumes later,
    when the upstream has answered every page (FinishRefresh). */
module Cache {
  import opened Json
  import opened Paging

  /** The cache's lifetime: five minutes, in milliseconds. */
  const DefaultTtl: int := 300000

  datatype CacheState = CacheState(
    records: Option<seq<Record>>,  // None until a refresh has succeeded
    lastUpdate: int,               // clock reading of the last success; 0 = invalidated
    isUpdating: bool,              // a refresh is in flight
    ttl: int)

  /** The cache at process start. */
  const Initial: CacheState := CacheState(None, 0, false, DefaultTtl)

  datatype RefreshError =
    | MissingCredentials                        // no API key or base id configured
    | AirtableError(status: int, body: string)  // a page came back with ok == false
    | FetchFailed(reason: string)               // a page request, or reading its body, threw

  /** What a refresh settles with: the records to serve (None is JSON `null`) or an error. */
  type RefreshResult = Result<Option<seq<Record>>, RefreshError>

  /** A step of the state machine: what the caller gets and the next state. */
  datatype Step<+T> = Step(out: T, next: CacheState)

  /** The error path of the refresh: propagate when nothing was ever loaded, else serve the old snapshot. */
  function Fallback(s: CacheState, e: RefreshError): (r: RefreshResult)
    ensures r.Err? <==> s.records.None?
    ensures r.Err? ==> r.error == e
    ensures r.Ok? ==> r.value == s.records
  {
    if s.records.None? then Err(e) else Ok(s.records)
  }

  // ---------------------------------------------------------------------------
  // refreshDataInBackground

  /** How the synchronous prefix of a refresh call ends. */
  datatype Begin =
    | Joined(current: Option<seq<Record>>)  // a refresh is already in flight: its caller gets the current records
    | Settled(result: RefreshResult)        // failed before the first request, flag already cleared again
    | Fetching                              // the first page request is out, the flag is set

  function BeginRefresh(s: CacheState, credentials: bool): Step<Begin>
  {
    if s.isUpdating then Step(Joined(s.records), s)
    else if !credentials then Step(Settled(Fallback(s, MissingCredentials)), s)
    else Step(Fetching, s.(isUpdating := true))
  }

  /** The error a stopping response raises. */
  function PageError(p: Page): RefreshError
    requires !p.Page?
  {
    match p
    case PageRejected(status, body) => AirtableError(status, body)
    case PageFailed(reason) => FetchFailed(reason)
  }

  /** The `do … while (offset)` loop: all records of the pages, or the first failure. */
  function ServerFetch(pages: seq<Page>): Result<seq<Record>, RefreshError>
    requires Ends(pages)
    decreases |pages|
  {
    match pages[0]
    case PageRejected(status, body) => Err(AirtableError(status, body))
    case PageFailed(reason) => Err(FetchFailed(reason))
    case Page(recs, offset) =>
      if !HasToken(offset) then Ok(recs)
      else
        EndsTail(pages);
        match ServerFetch(pages[1..])
        case Ok(rest) => Ok(recs + rest)
        case Err(e) => Err(e)
  }

  /** The loop's result in terms of the pages it reads: success exactly when the stopping
      response is a page, and then the in-order concatenation of every page read; otherwise
      the stopping response's error. */
  lemma {:induction false} ServerFetchReadsConsumedPages(pages: seq<Page>)
    requires Ends(pages)
    ensures var c := Consumed(pages);
      ServerFetch(pages) == if c[|c| - 1].Page? then Ok(Flatten(c)) else Err(PageError(c[|c| - 1]))
  {
    if Continues(pages[0]) {
      ConsumedCons(pages);
      ServerFetchReadsConsumedPages(pages[1..]);
      var c := Consumed(pages);
      var c' := Consumed(pages[1..]);
      assert c[1..] == c';
      assert c[|c| - 1] == c'[|c'| - 1];
      assert Flatten(c) == pages[0].records + Flatten(c');
    } else {
      ConsumedStop(pages);
      var c := Consumed(pages);
      assert c[|c| - 1] == pages[0];
      assert Flatten(c) == RecordsOf(pages[0]) + Flatten([]) == RecordsOf(pages[0]);
    }
  }

  /** The continuation after the last page: replace the records wholesale and stamp the
      clock on success, fall back on failure, and in every case clear the flag. */
  function FinishRefresh(s: CacheState, pages: seq<Page>, doneAt: int): Step<RefreshResult>
    requires s.isUpdating && Ends(pages)
  {
    match ServerFetch(pages)
    case Ok(all) => Step(Ok(Some(all)), s.(records := Some(all), lastUpdate := doneAt, isUpdating := false))
    case Err(e) => Step(Fallback(s, e), s.(isUpdating := false))
  }

  // ---------------------------------------------------------------------------
  // GET /api/data

  datatype ReadPath = ServeFresh | ServeStale | AwaitRefresh

  /** The handler's two guards, in order. */
  function PathOf(s: CacheState, force: bool, now: int): ReadPath
  {
    if !force && s.records.Some? && s.lastUpdate > 0 && now - s.lastUpdate < s.ttl then ServeFresh
    else if !force && s.records.Some? && s.lastUpdate > 0 && !s.isUpdating then ServeStale
    else AwaitRefresh
  }

  /** A reply of the data route: 200 with the records (JSON `null` when None) or 500 with the error. */
  datatype DataReply = Served(body: Option<seq<Record>>) | ServerError(error: RefreshError)

  function ReplyOf(r: RefreshResult): DataReply
  {
    match r
    case Ok(body) => Served(body)
    case Err(e) => ServerError(e)
  }

  /** How the handler's synchronous part ends: with a reply, or awaiting the refresh it started. */
  datatype ReadOutcome = Replied(reply: DataReply) | Waiting

  /** `fetching`: this request sent the first page request of a new refresh. */
  datatype Read = Read(outcome: ReadOutcome, fetching: bool, next: CacheState)

  function HandleRead(s: CacheState, force: bool, now: int, credentials: bool): Read
  {
    match PathOf(s, force, now)
    case ServeFresh => Read(Replied(Served(s.records)), false, s)
    case ServeStale =>
      // refreshDataInBackground() is not awaited; with records present it can never reject
      var b := BeginRefresh(s, credentials);
      Read(Replied(Served(s.records)), b.out.Fetching?, b.next)
    case AwaitRefresh =>
      var b := BeginRefresh(s, credentials);
      match b.out
      case Joined(current) => Read(Replied(Served(current)), false, b.next)
      case Settled(result) => Read(Replied(ReplyOf(result)), false, b.next)
      case Fetching => Read(Waiting, true, b.next)
  }

  /** A data request run to its reply with nothing else interleaved: a waiting request
      receives what the refresh it started settles with. */
  function HandleReadToEnd(s: CacheState, force: bool, now: int, credentials: bool,
                           pages: seq<Page>, doneAt: int): Step<DataReply>
    requires Ends(pages)
  {
    var r := HandleRead(s, force, now, credentials);
    match r.outcome
    case Replied(reply) => Step(reply, r.next)
    case Waiting =>
      var f := FinishRefresh(r.next, pages, doneAt);
      Step(ReplyOf(f.out), f.next)
  }

  // ---------------------------------------------------------------------------
  // The write routes and their invalidation

  /** A response body: readable text, or reading it threw with this message. */
  datatype Body = Readable(text: string) | Unreadable(message: string)

  /** The answer of the data service or the automation webhook to a write. */
  datatype WriteResponse =
    | Accepted(body: Body)                // ok == true
    | Rejected(status: int, body: Body)   // ok == false
    | Failed(reason: string)              // the request threw

  datatype ErrorBody =
    | Message(text: string)                                   // { error }
    | Upstream(title: string, status: int, details: string)   // { error, status, details }

  /** A reply of a write or list route: 200 with a body, or a status code with an error body. */
  datatype Reply<+T> = Answer(body: T) | Failure(code: int, error: ErrorBody)

  const ConfigMissing: string := "Server configuration missing API Key or Base ID"
  const RecordIdRequired: string := "recordId is required"

  /** `error.message || 'Internal Server Error'`. */
  function InternalMessage(message: string): string
  {
    if message == "" then "Internal Server Error" else message
  }

  /** `dataCache.lastUpdate = 0`: the next read must refresh, the snapshot and the flag stay. */
  function Invalidate(s: CacheState): (t: CacheState)
    ensures t.lastUpdate == 0
    ensures t.records == s.records && t.isUpdating == s.isUpdating && t.ttl == s.ttl
  {
    s.(lastUpdate := 0)
  }

  /** PATCH /api/update-record. The body is parsed before the ok flag is looked at. */
  function HandleUpdate(s: CacheState, credentials: bool, response: WriteResponse): Step<Reply<string>>
  {
    if !credentials then Step(Failure(500, Message(ConfigMissing)), s)
    else
      match response
      case Failed(reason) => Step(Failure(500, Message(InternalMessage(reason))), s)
      case Rejected(status, Unreadable(m)) => Step(Failure(500, Message(InternalMessage(m))), s)
      case Rejected(status, Readable(t)) => Step(Failure(status, Upstream("Airtable update error", status, t)), s)
      case Accepted(Unreadable(m)) => Step(Failure(500, Message(InternalMessage(m))), s)
      case Accepted(Readable(t)) => Step(Answer(t), Invalidate(s))
  }

  /** `!recordId`. */
  predicate HasRecordId(recordId: Option<string>)
  {
    recordId.Some? && recordId.value != ""
  }

  /** POST /api/trigger-restore. The cache is invalidated as soon as the webhook accepts,
      before its body is read; the reply's body is the webhook's text. */
  function HandleRestore(s: CacheState, recordId: Option<string>, response: WriteResponse): Step<Reply<string>>
  {
    if !HasRecordId(recordId) then Step(Failure(400, Message(RecordIdRequired)), s)
    else
      match response
      case Failed(reason) => Step(Failure(500, Message(InternalMessage(reason))), s)
      case Rejected(status, Unreadable(m)) => Step(Failure(500, Message(InternalMessage(m))), s)
      case Rejected(status, Readable(t)) => Step(Failure(status, Upstream("n8n restoration error", status, t)), s)
      case Accepted(Unreadable(m)) => Step(Failure(500, Message(InternalMessage(m))), Invalidate(s))
      case Accepted(Readable(t)) => Step(Answer(t), Invalidate(s))
  }
}
