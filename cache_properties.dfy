/** What the read-through cache promises, proved of the state machine in module Cache. */
module CacheProperties {
  import opened Json
  import opened Paging
  import opened Cache

  // ---------------------------------------------------------------------------
  // Which path a data request takes

  /** The three paths, each exactly characterised. Freshness uses a strict comparison, so an
      entry whose age equals the lifetime is stale; `lastUpdate == 0` and `force` rule out
      both cache paths. */
  lemma ReadPaths(s: CacheState, force: bool, now: int)
    ensures PathOf(s, force, now) == ServeFresh <==>
      !force && s.records.Some? && s.lastUpdate > 0 && now - s.lastUpdate < s.ttl
    ensures PathOf(s, force, now) == ServeStale <==>
      !force && s.records.Some? && s.lastUpdate > 0 && now - s.lastUpdate >= s.ttl && !s.isUpdating
    ensures PathOf(s, force, now) == AwaitRefresh <==>
      force || s.records.None? || s.lastUpdate <= 0 || (now - s.lastUpdate >= s.ttl && s.isUpdating)
  {
  }

  /** A fresh hit replies with exactly the cached records, starts no fetch and changes nothing. */
  lemma FreshHit(s: CacheState, now: int, credentials: bool)
    requires s.records.Some? && s.lastUpdate > 0 && now - s.lastUpdate < s.ttl
    ensures HandleRead(s, false, now, credentials) == Read(Replied(Served(s.records)), false, s)
  {
  }

  /** Repeated non-forced reads within the lifetime all get the same records, none of them
      fetches, and the cache is left as it was. */
  lemma {:induction false} FreshReadsAreIdentical(s: CacheState, times: seq<int>, credentials: bool)
    requires s.records.Some? && s.lastUpdate > 0
    requires forall i :: 0 <= i < |times| ==> times[i] - s.lastUpdate < s.ttl
    ensures Replay(s, seq(|times|, i requires 0 <= i < |times| => Request(false, times[i], credentials)))
            == Replayed(seq(|times|, i requires 0 <= i < |times| => Replied(Served(s.records))), s, 0)
  {
    var reqs := seq(|times|, i requires 0 <= i < |times| => Request(false, times[i], credentials));
    if |times| > 0 {
      FreshHit(s, times[0], credentials);
      FreshReadsAreIdentical(s, times[1..], credentials);
      assert reqs[1..] == seq(|times[1..]|, i requires 0 <= i < |times[1..]| => Request(false, times[1..][i], credentials));
      assert seq(|times|, i requires 0 <= i < |times| => Replied(Served(s.records)))
          == [Replied(Served(s.records))] + seq(|times[1..]|, i requires 0 <= i < |times[1..]| => Replied(Served(s.records)));
    }
  }

  /** A stale hit replies with the old records at once and starts a background refresh,
      which sets the flag; without credentials that refresh fails before its first request,
      and the flag is already cleared again. */
  lemma StaleHit(s: CacheState, now: int, credentials: bool)
    requires s.records.Some? && s.lastUpdate > 0 && now - s.lastUpdate >= s.ttl && !s.isUpdating
    ensures var r := HandleRead(s, false, now, credentials);
      && r.outcome == Replied(Served(s.records))
      && r.fetching == credentials
      && r.next == (if credentials then s.(isUpdating := true) else s)
  {
  }

  /** After invalidation a non-forced request can take neither cache path: it always
      waits for a refresh (or joins the one in flight). */
  lemma InvalidatedReadWaits(s: CacheState, now: int, credentials: bool)
    requires s.lastUpdate == 0
    ensures PathOf(s, false, now) == AwaitRefresh
    ensures !s.isUpdating && credentials ==> HandleRead(s, false, now, credentials) == Read(Waiting, true, s.(isUpdating := true))
  {
  }

  /** A forced request never takes a cache path. */
  lemma ForcedReadWaits(s: CacheState, now: int)
    ensures PathOf(s, true, now) == AwaitRefresh
  {
  }

  // ---------------------------------------------------------------------------
  // Single flight

  /** While a refresh is in flight, a refresh call returns the current records (possibly
      null) and changes nothing, and so does any data request, forced or not. */
  lemma SingleRun(s: CacheState, force: bool, now: int, credentials: bool)
    requires s.isUpdating
    ensures BeginRefresh(s, credentials) == Step(Joined(s.records), s)
    ensures HandleRead(s, force, now, credentials) == Read(Replied(Served(s.records)), false, s)
  {
  }

  /** The request that joins the very first load gets JSON null, not the records: the
      in-flight refresh is not awaited by anyone but its own starter. */
  lemma JoinDuringFirstLoadServesNull(s: CacheState, force: bool, now: int, credentials: bool)
    requires s.isUpdating && s.records.None?
    ensures HandleRead(s, force, now, credentials).outcome == Replied(Served(None))
  {
  }

  /** A data request changes the cache only by starting a fetch, and starting one sets the flag. */
  lemma ReadChangesOnlyByFetching(s: CacheState, force: bool, now: int, credentials: bool)
    ensures var r := HandleRead(s, force, now, credentials);
      (r.fetching ==> !s.isUpdating && r.next == s.(isUpdating := true)) && (!r.fetching ==> r.next == s)
  {
  }

  /** One data request of a burst. */
  datatype Request = Request(force: bool, now: int, credentials: bool)

  /** What a burst of requests sees when no refresh completes during it. */
  datatype Replayed = Replayed(outcomes: seq<ReadOutcome>, last: CacheState, fetches: nat)

  function Replay(s: CacheState, reqs: seq<Request>): (r: Replayed)
    ensures |r.outcomes| == |reqs|
    decreases |reqs|
  {
    if reqs == [] then Replayed([], s, 0)
    else
      var q := reqs[0];
      var r := HandleRead(s, q.force, q.now, q.credentials);
      var rest := Replay(r.next, reqs[1..]);
      Replayed([r.outcome] + rest.outcomes, rest.last, rest.fetches + (if r.fetching then 1 else 0))
  }

  /** Single flight: however many requests arrive, forced or not and at whatever times,
      at most one of them sends page requests until that refresh completes; if one is
      already in flight, none does and the cache does not change. */
  lemma {:induction false} AtMostOneFetch(s: CacheState, reqs: seq<Request>)
    ensures Replay(s, reqs).fetches <= 1
    ensures s.isUpdating ==> Replay(s, reqs).fetches == 0 && Replay(s, reqs).last == s
    ensures Replay(s, reqs).fetches == 1 ==> Replay(s, reqs).last == s.(isUpdating := true)
    ensures Replay(s, reqs).fetches == 0 ==> Replay(s, reqs).last == s
    decreases |reqs|
  {
    if reqs != [] {
      var q := reqs[0];
      ReadChangesOnlyByFetching(s, q.force, q.now, q.credentials);
      var r := HandleRead(s, q.force, q.now, q.credentials);
      AtMostOneFetch(r.next, reqs[1..]);
      if r.fetching {
        assert r.next.isUpdating;
        assert r.next.(isUpdating := true) == r.next;
      }
    }
  }

  /** During an in-flight refresh every request of a burst is answered at once with the
      current records. */
  lemma {:induction false} BurstDuringRefresh(s: CacheState, reqs: seq<Request>)
    requires s.isUpdating
    ensures forall i :: 0 <= i < |reqs| ==> Replay(s, reqs).outcomes[i] == Replied(Served(s.records))
    decreases |reqs|
  {
    if reqs != [] {
      var q := reqs[0];
      SingleRun(s, q.force, q.now, q.credentials);
      BurstDuringRefresh(s, reqs[1..]);
    }
  }

  // ---------------------------------------------------------------------------
  // How a refresh ends

  /** Without credentials the refresh fails before any request: first load errors, otherwise
      the old snapshot is served, and the cache is unchanged. */
  lemma MissingCredentialsRefresh(s: CacheState)
    requires !s.isUpdating
    ensures BeginRefresh(s, false) == Step(Settled(Fallback(s, MissingCredentials)), s)
  {
  }

  /** A successful refresh replaces the records wholesale by the in-order concatenation of
      every page read (up to the first page without a token), stamps the clock and clears
      the flag. */
  lemma RefreshSuccess(s: CacheState, pages: seq<Page>, doneAt: int)
    requires s.isUpdating && Ends(pages)
    requires var c := Consumed(pages); c[|c| - 1].Page?
    ensures var all := Flatten(Consumed(pages));
      FinishRefresh(s, pages, doneAt)
        == Step(Ok(Some(all)), CacheState(Some(all), doneAt, false, s.ttl))
  {
    ServerFetchReadsConsumedPages(pages);
  }

  /** A failed refresh (a rejected or failing page) leaves the records and the clock alone
      and clears the flag; the error reaches the caller only on a first load. */
  lemma RefreshFailure(s: CacheState, pages: seq<Page>, doneAt: int)
    requires s.isUpdating && Ends(pages)
    requires var c := Consumed(pages); !c[|c| - 1].Page?
    ensures var c := Consumed(pages); var f := FinishRefresh(s, pages, doneAt);
      && f.next == s.(isUpdating := false)
      && (s.records.None? ==> f.out == Err(PageError(c[|c| - 1])))
      && (s.records.Some? ==> f.out == Ok(s.records))
  {
    ServerFetchReadsConsumedPages(pages);
  }

  /** The snapshot is never partly updated: after a refresh it is either the previous one
      or exactly the records of all the pages read. */
  lemma SnapshotIsWholesale(s: CacheState, pages: seq<Page>, doneAt: int)
    requires s.isUpdating && Ends(pages)
    ensures var t := FinishRefresh(s, pages, doneAt).next;
      t.records == s.records || t.records == Some(Flatten(Consumed(pages)))
  {
    ServerFetchReadsConsumedPages(pages);
  }

  /** First load: from the process-start state a request fetches and waits; success makes
      the cache fresh with the new clock, failure is a 500 and leaves the start state. */
  lemma FirstLoad(now: int, pages: seq<Page>, doneAt: int)
    requires Ends(pages)
    ensures var c := Consumed(pages); var r := HandleReadToEnd(Initial, false, now, true, pages, doneAt);
      && (c[|c| - 1].Page? ==>
            r == Step(Served(Some(Flatten(c))), CacheState(Some(Flatten(c)), doneAt, false, DefaultTtl)))
      && (!c[|c| - 1].Page? ==> r == Step(ServerError(PageError(c[|c| - 1])), Initial))
  {
    ServerFetchReadsConsumedPages(pages);
  }

  /** Stale-while-revalidate: the stale hit serves the old records, the background refresh
      then installs the new ones, and a read right after it is a fresh hit on them. */
  lemma StaleThenRevalidated(s: CacheState, now: int, pages: seq<Page>, doneAt: int, later: int)
    requires s.records.Some? && s.lastUpdate > 0 && now - s.lastUpdate >= s.ttl && !s.isUpdating
    requires Ends(pages) && ServerFetch(pages).Ok?
    requires doneAt > 0 && later - doneAt < s.ttl
    ensures var r := HandleRead(s, false, now, true);
      && r.outcome == Replied(Served(s.records))
      && var f := FinishRefresh(r.next, pages, doneAt);
      && HandleRead(f.next, false, later, true) == Read(Replied(Served(Some(ServerFetch(pages).value))), false, f.next)
  {
  }

  // ---------------------------------------------------------------------------
  // Invalidation by the write routes

  /** A successful update invalidates (leaving the records and the flag); every other outcome
      (missing credentials, an unreachable or rejecting upstream, an unreadable body) leaves
      the cache completely unchanged. */
  lemma UpdateInvalidatesOnlyOnSuccess(s: CacheState, credentials: bool, response: WriteResponse)
    ensures var u := HandleUpdate(s, credentials, response);
      && (u.out.Answer? <==> credentials && response.Accepted? && response.body.Readable?)
      && u.next == (if u.out.Answer? then Invalidate(s) else s)
  {
  }

  /** An accepted restore invalidates, even when its body then cannot be read (500); a
      missing record id (400) or a rejected or failed webhook call leaves the cache as it was. */
  lemma RestoreInvalidatesOnAcceptance(s: CacheState, recordId: Option<string>, response: WriteResponse)
    ensures var u := HandleRestore(s, recordId, response);
      && u.next == (if HasRecordId(recordId) && response.Accepted? then Invalidate(s) else s)
      && (!HasRecordId(recordId) ==> u.out == Failure(400, Message(RecordIdRequired)))
      && (u.out.Answer? <==> HasRecordId(recordId) && response.Accepted? && response.body.Readable?)
  {
  }

  /** After a successful write, the next non-forced read performs a synchronous refresh. */
  lemma WriteThenReadRefreshes(s: CacheState, body: string, now: int)
    requires !s.isUpdating
    ensures var u := HandleUpdate(s, true, Accepted(Readable(body)));
      HandleRead(u.next, false, now, true) == Read(Waiting, true, Invalidate(s).(isUpdating := true))
  {
  }

  /** A write committed while a refresh is in flight loses its invalidation: the refresh,
      begun before the write, stamps the clock when it completes, and a read within the
      lifetime is then a fresh hit on records that may predate the write. */
  lemma InvalidationDuringRefreshIsLost(s: CacheState, body: string, pages: seq<Page>, doneAt: int, later: int)
    requires s.isUpdating && Ends(pages) && ServerFetch(pages).Ok?
    requires doneAt > 0 && later - doneAt < s.ttl
    ensures var u := HandleUpdate(s, true, Accepted(Readable(body)));
      && u.next.lastUpdate == 0
      && var f := FinishRefresh(u.next, pages, doneAt);
      && f.next.lastUpdate == doneAt
      && PathOf(f.next, false, later) == ServeFresh
  {
  }
}
