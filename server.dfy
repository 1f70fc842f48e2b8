/** The backend's mutable cache object and its route handlers.

    `dataCache` is one object whose fields the handlers assign. Each method below does
    what the matching handler does to it, step by step, and is proved to agree with the
    state machine of module Cache, whose properties module CacheProperties proves. */
module Server {
  import opened Json
  import opened Paging
  import opened Cache

  class DataCache {
    var records: Option<seq<Record>>
    var lastUpdate: int
    var isUpdating: bool
    const ttl: int

    /** The cache at process start. */
    constructor()
      ensures State() == Initial
    {
      records := None;
      lastUpdate := 0;
      isUpdating := false;
      ttl := DefaultTtl;
    }

    /** The cache as a value. */
    function State(): CacheState
      reads this
    {
      CacheState(records, lastUpdate, isUpdating, ttl)
    }
  }

  /** `refreshDataInBackground` up to its first await. */
  method RefreshBegin(cache: DataCache, credentials: bool) returns (b: Begin)
    modifies cache
    ensures Step(b, cache.State()) == BeginRefresh(old(cache.State()), credentials)
  {
    if cache.isUpdating {
      return Joined(cache.records);
    }
    cache.isUpdating := true;
    if !credentials {
      // thrown before any await: the catch and the finally run at once
      b := Settled(if cache.records.None? then Err(MissingCredentials) else Ok(cache.records));
      cache.isUpdating := false;
      return;
    }
    b := Fetching;
  }

  /** The paging loop: request pages and accumulate their records while a token comes back. */
  method FetchAll(pages: seq<Page>) returns (r: Result<seq<Record>, RefreshError>)
    requires Ends(pages)
    ensures r == ServerFetch(pages)
  {
    var allRecords: seq<Record> := [];
    var i := 0;
    assert pages[0..] == pages;
    PrefixedNothing(ServerFetch(pages));
    while true
      invariant 0 <= i <= |pages| && Ends(pages[i..])
      invariant ServerFetch(pages) == Prefixed(allRecords, ServerFetch(pages[i..]))
      decreases |pages| - i
    {
      assert pages[i..][0] == pages[i];
      match pages[i]
      case PageRejected(status, body) =>
        return Err(AirtableError(status, body));
      case PageFailed(reason) =>
        return Err(FetchFailed(reason));
      case Page(recs, offset) =>
        ghost var before := allRecords;
        allRecords := allRecords + recs;
        if !HasToken(offset) {
          return Ok(allRecords);
        }
        EndsTail(pages[i..]);
        assert pages[i..][1..] == pages[i + 1..];
        PrefixedTwice(before, recs, ServerFetch(pages[i + 1..]));
        i := i + 1;
    }
  }

  /** `refreshDataInBackground` from its first await to the end: the loop, then the
      wholesale replacement or the fallback, and the `finally` that clears the flag. */
  method RefreshFinish(cache: DataCache, pages: seq<Page>, doneAt: int) returns (r: RefreshResult)
    requires cache.isUpdating && Ends(pages)
    modifies cache
    ensures Step(r, cache.State()) == FinishRefresh(old(cache.State()), pages, doneAt)
  {
    var fetched := FetchAll(pages);
    match fetched {
      case Ok(allRecords) =>
        cache.records := Some(allRecords);
        cache.lastUpdate := doneAt;
        r := Ok(Some(allRecords));
      case Err(e) =>
        r := if cache.records.None? then Err(e) else Ok(cache.records);
    }
    cache.isUpdating := false;
  }

  /** GET /api/data up to the point where the handler replies or awaits its refresh. */
  method GetData(cache: DataCache, force: bool, now: int, credentials: bool)
    returns (outcome: ReadOutcome, fetching: bool)
    modifies cache
    ensures Read(outcome, fetching, cache.State()) == HandleRead(old(cache.State()), force, now, credentials)
  {
    if !force && cache.records.Some? && cache.lastUpdate > 0 && now - cache.lastUpdate < cache.ttl {
      return Replied(Served(cache.records)), false;
    }
    if !force && cache.records.Some? && cache.lastUpdate > 0 && !cache.isUpdating {
      var served := cache.records;
      var b := RefreshBegin(cache, credentials);
      return Replied(Served(served)), b.Fetching?;
    }
    var b := RefreshBegin(cache, credentials);
    match b
    case Joined(current) => outcome, fetching := Replied(Served(current)), false;
    case Settled(result) => outcome, fetching := Replied(ReplyOf(result)), false;
    case Fetching => outcome, fetching := Waiting, true;
  }

  /** GET /api/data run to its reply with no other handler interleaved. */
  method GetDataToEnd(cache: DataCache, force: bool, now: int, credentials: bool, pages: seq<Page>, doneAt: int)
    returns (reply: DataReply)
    requires Ends(pages)
    modifies cache
    ensures Step(reply, cache.State()) == HandleReadToEnd(old(cache.State()), force, now, credentials, pages, doneAt)
  {
    var outcome, fetching := GetData(cache, force, now, credentials);
    match outcome
    case Replied(r) => reply := r;
    case Waiting =>
      var result := RefreshFinish(cache, pages, doneAt);
      reply := ReplyOf(result);
  }

  /** PATCH /api/update-record. */
  method UpdateRecord(cache: DataCache, credentials: bool, response: WriteResponse) returns (reply: Reply<string>)
    modifies cache
    ensures Step(reply, cache.State()) == HandleUpdate(old(cache.State()), credentials, response)
  {
    if !credentials {
      return Failure(500, Message(ConfigMissing));
    }
    match response
    case Failed(reason) =>
      reply := Failure(500, Message(InternalMessage(reason)));
    case Rejected(status, body) =>
      match body {
        case Unreadable(m) => reply := Failure(500, Message(InternalMessage(m)));
        case Readable(t) => reply := Failure(status, Upstream("Airtable update error", status, t));
      }
    case Accepted(body) =>
      match body
      case Unreadable(m) => reply := Failure(500, Message(InternalMessage(m)));
      case Readable(t) =>
        cache.lastUpdate := 0;
        reply := Answer(t);
  }

  /** POST /api/trigger-restore. */
  method TriggerRestore(cache: DataCache, recordId: Option<string>, response: WriteResponse) returns (reply: Reply<string>)
    modifies cache
    ensures Step(reply, cache.State()) == HandleRestore(old(cache.State()), recordId, response)
  {
    if recordId.None? || recordId.value == "" {
      return Failure(400, Message(RecordIdRequired));
    }
    match response
    case Failed(reason) =>
      reply := Failure(500, Message(InternalMessage(reason)));
    case Rejected(status, body) =>
      match body {
        case Unreadable(m) => reply := Failure(500, Message(InternalMessage(m)));
        case Readable(t) => reply := Failure(status, Upstream("n8n restoration error", status, t));
      }
    case Accepted(body) =>
      cache.lastUpdate := 0;
      match body
      case Unreadable(m) => reply := Failure(500, Message(InternalMessage(m)));
      case Readable(t) => reply := Answer(t);
  }
}
