/** The dashboard object (`AirtableDashboard`): its direct paging fetch, the load that
    replaces its rows, and the city and date filters over them. */
module Dashboard {
  import opened Json
  import opened Paging
  import opened Rows
  import opened Cities

  /** Why `fetchAirtableData` throws. */
  datatype ClientError =
    | FirstPageRejected(status: int)   // the first response's ok flag is false
    | NetworkFailure(reason: string)   // a request, or reading a body, threw

  /** Records as the entries of `allRecords`. */
  function Wrap(rs: seq<Record>): (es: seq<Entry>)
    ensures |es| == |rs| && forall i :: 0 <= i < |rs| ==> es[i] == Rec(rs[i])
  {
    seq(|rs|, i requires 0 <= i < |rs| => Rec(rs[i]))
  }

  lemma WrapAppend(a: seq<Record>, b: seq<Record>)
    ensures Wrap(a + b) == Wrap(a) + Wrap(b)
  {
  }

  /** The pages after the first. Their ok flag is not checked: a rejected page's error body
      has no `records`, so `concat` appends one undefined entry, and no `offset`, so the loop
      stops. */
  function ClientRest(pages: seq<Page>): Result<seq<Entry>, ClientError>
    requires Ends(pages)
    decreases |pages|
  {
    match pages[0]
    case PageFailed(reason) => Err(NetworkFailure(reason))
    case PageRejected(_, _) => Ok([Undefined])
    case Page(recs, offset) =>
      if !HasToken(offset) then Ok(Wrap(recs))
      else
        EndsTail(pages);
        Prefixed(Wrap(recs), ClientRest(pages[1..]))
  }

  /** `fetchAirtableData`: the first response must be ok; the later ones are read as above. */
  function ClientFetch(pages: seq<Page>): Result<seq<Entry>, ClientError>
    requires Ends(pages)
  {
    match pages[0]
    case PageFailed(reason) => Err(NetworkFailure(reason))
    case PageRejected(status, _) => Err(FirstPageRejected(status))
    case Page(_, _) => ClientRest(pages)
  }

  /** What the later-page loop yields after reading the pages `c`: an error if the last
      one failed; otherwise all their records, in order, and one undefined entry if the last
      one was rejected. */
  function ReadResult(c: seq<Page>): Result<seq<Entry>, ClientError>
    requires |c| > 0
  {
    var last := c[|c| - 1];
    if last.PageFailed? then Err(NetworkFailure(last.reason))
    else Ok(Wrap(Flatten(c)) + (if last.PageRejected? then [Undefined] else []))
  }

  lemma ReadResultCons(p: Page, c: seq<Page>)
    requires Continues(p) && |c| > 0
    ensures ReadResult([p] + c) == Prefixed(Wrap(p.records), ReadResult(c))
  {
    var pc := [p] + c;
    assert pc[1..] == c;
    assert pc[|pc| - 1] == c[|c| - 1];
    assert Flatten(pc) == p.records + Flatten(c);
    WrapAppend(p.records, Flatten(c));
    var tail: seq<Entry> := if c[|c| - 1].PageRejected? then [Undefined] else [];
    assert Wrap(p.records) + (Wrap(Flatten(c)) + tail) == Wrap(Flatten(pc)) + tail;
  }

  lemma ClientRestStop(pages: seq<Page>)
    requires |pages| > 0 && !Continues(pages[0])
    ensures Ends(pages) && ClientRest(pages) == ReadResult([pages[0]])
  {
    ConsumedStop(pages);
    var c := [pages[0]];
    assert Flatten(c) == RecordsOf(pages[0]) + Flatten([]) == RecordsOf(pages[0]);
    assert Wrap(Flatten(c)) + [] == Wrap(Flatten(c));
    if pages[0].PageRejected? {
      assert Wrap(Flatten(c)) == [];
      assert Wrap(Flatten(c)) + [Undefined] == [Undefined];
    }
  }

  /** `ClientRest` in terms of the pages the loop reads. */
  lemma {:induction false} ClientRestReadsConsumedPages(pages: seq<Page>)
    requires Ends(pages)
    ensures ClientRest(pages) == ReadResult(Consumed(pages))
  {
    if Continues(pages[0]) {
      ConsumedCons(pages);
      ClientRestReadsConsumedPages(pages[1..]);
      ReadResultCons(pages[0], Consumed(pages[1..]));
    } else {
      ClientRestStop(pages);
      ConsumedStop(pages);
    }
  }

  /** The fetch's result: an error when the first response is rejected or any read response
      failed; otherwise every record of every page read, in order, followed by one undefined
      entry when the loop stopped at a rejected later page. */
  lemma ClientFetchReadsConsumedPages(pages: seq<Page>)
    requires Ends(pages)
    ensures var c := Consumed(pages); var last := c[|c| - 1];
      ClientFetch(pages) ==
        if last.PageFailed? then Err(NetworkFailure(last.reason))
        else if last.PageRejected? && |c| == 1 then Err(FirstPageRejected(last.status))
        else Ok(Wrap(Flatten(c)) + (if last.PageRejected? then [Undefined] else []))
  {
    var c := Consumed(pages);
    assert c[0] == pages[0];
    if Continues(pages[0]) {
      ClientRestReadsConsumedPages(pages);
    } else {
      ConsumedStop(pages);
      if pages[0].Page? {
        ClientRestReadsConsumedPages(pages);
      }
    }
  }

  /** The fetch loop: read pages while the last one carried a token. */
  method FetchAirtableData(pages: seq<Page>) returns (r: Result<seq<Entry>, ClientError>)
    requires Ends(pages)
    ensures r == ClientFetch(pages)
  {
    match pages[0] {
      case PageFailed(reason) =>
        return Err(NetworkFailure(reason));
      case PageRejected(status, _) =>
        return Err(FirstPageRejected(status));
      case Page(recs, offset0) =>
    }
    var allRecords := Wrap(pages[0].records);
    var offset := pages[0].offset;
    var i := 1;
    if HasToken(offset) {
      EndsTail(pages);
    }
    while HasToken(offset)
      invariant 1 <= i <= |pages|
      invariant HasToken(offset) ==> Ends(pages[i..]) && ClientFetch(pages) == Prefixed(allRecords, ClientRest(pages[i..]))
      invariant !HasToken(offset) ==> ClientFetch(pages) == Ok(allRecords)
      decreases |pages| - i
    {
      assert pages[i..][0] == pages[i];
      ghost var before := allRecords;
      match pages[i] {
        case PageFailed(reason) =>
          return Err(NetworkFailure(reason));
        case PageRejected(_, _) =>
          allRecords := allRecords + [Undefined];
          offset := None;
        case Page(recs, next) =>
          allRecords := allRecords + Wrap(recs);
          offset := next;
          if HasToken(offset) {
            EndsTail(pages[i..]);
            assert pages[i..][1..] == pages[i + 1..];
            PrefixedTwice(before, Wrap(recs), ClientRest(pages[i + 1..]));
          }
      }
      i := i + 1;
    }
    return Ok(allRecords);
  }

  /** What a load puts on screen: the transformed rows, or None when the fetch or the
      transformation throws. */
  function Load(pages: seq<Page>): Option<seq<Row>>
    requires Ends(pages)
  {
    match ClientFetch(pages)
    case Err(_) => None
    case Ok(entries) => TransformData(entries)
  }

  /** A load whose last page read is a rejected later page always fails: the undefined entry
      makes `transformData` throw. */
  lemma LaterRejectionFailsLoad(pages: seq<Page>)
    requires Ends(pages)
    requires var c := Consumed(pages); |c| > 1 && c[|c| - 1].PageRejected?
    ensures Load(pages).None?
  {
    ClientFetchReadsConsumedPages(pages);
    var c := Consumed(pages);
    var entries := Wrap(Flatten(c)) + [Undefined];
    assert !Convertible(entries[|entries| - 1]);
  }

  /** A load that reads only ok pages shows one row per record read, in order. */
  lemma SuccessfulLoad(pages: seq<Page>)
    requires Ends(pages)
    requires var c := Consumed(pages); c[|c| - 1].Page?
    requires var rs := Flatten(Consumed(pages)); forall i :: 0 <= i < |rs| ==> !NumericDate(rs[i])
    ensures var rs := Flatten(Consumed(pages));
      Load(pages).Some? && |Load(pages).value| == |rs| &&
      forall i :: 0 <= i < |rs| ==> Load(pages).value[i] == TransformRecord(rs[i])
  {
    ClientFetchReadsConsumedPages(pages);
    var rs := Flatten(Consumed(pages));
    assert Wrap(rs) + [] == Wrap(rs);
  }

  /** A date clause that accepts every row: both date inputs empty. */
  function AnyDate(): Row -> bool
  {
    (row: Row) => true
  }

  lemma {:induction false} SubsequenceReflexive<T>(s: seq<T>)
    ensures IsSubsequence(s, s)
    decreases |s|
  {
    if s != [] {
      SubsequenceReflexive(s[1..]);
    }
  }

  class AirtableDashboard {
    var data: seq<Row>
    var filteredData: seq<Row>
    /** The options of the city select, after its "all cities" entry. */
    var cityOptions: seq<string>
    /** The city select's value; "" is "all cities". */
    var villeFilter: string
    /** The date clause the two date inputs currently define. */
    var dateMatch: Row -> bool
    var errorShown: bool

    /** The city select offers exactly the cities of the data, its value is one of them or
        "all", and the shown rows are drawn from the data in order. */
    predicate Valid()
      reads this
    {
      cityOptions == CityList(data)
      && (villeFilter == "" || villeFilter in cityOptions)
      && IsSubsequence(filteredData, data)
    }

    constructor()
      ensures Valid()
      ensures data == [] && filteredData == [] && villeFilter == "" && !errorShown
    {
      data := [];
      filteredData := [];
      cityOptions := [];
      villeFilter := "";
      dateMatch := AnyDate();
      errorShown := false;
    }

    /** `loadData`: on success the rows are replaced and shown unfiltered and the city select
        is rebuilt, which resets it to "all"; on failure only the error is shown. */
    method LoadData(pages: seq<Page>)
      requires Valid() && Ends(pages)
      modifies this
      ensures Valid()
      ensures Load(pages).Some? ==>
        data == Load(pages).value && filteredData == data && cityOptions == CityList(data)
        && villeFilter == "" && !errorShown && dateMatch == old(dateMatch)
      ensures Load(pages).None? ==>
        data == old(data) && filteredData == old(filteredData) && cityOptions == old(cityOptions)
        && villeFilter == old(villeFilter) && dateMatch == old(dateMatch) && errorShown
    {
      errorShown := false;
      var fetched := FetchAirtableData(pages);
      if fetched.Err? {
        errorShown := true;
        return;
      }
      var rows := TransformData(fetched.value);
      if rows.None? {
        errorShown := true;
        return;
      }
      data := rows.value;
      filteredData := data;
      cityOptions := CityList(data);
      villeFilter := "";
      SubsequenceReflexive(data);
    }

    /** `applyFilters`: the rows that pass the city and date clauses, in their order. */
    method ApplyFilters()
      requires Valid()
      modifies this
      ensures Valid()
      ensures filteredData == FilterRows(data, villeFilter, dateMatch)
      ensures data == old(data) && cityOptions == old(cityOptions) && villeFilter == old(villeFilter)
      ensures dateMatch == old(dateMatch) && errorShown == old(errorShown)
    {
      filteredData := FilterRows(data, villeFilter, dateMatch);
    }

    /** A change of the city select, then `applyFilters`. */
    method SelectCity(c: string)
      requires Valid() && (c == "" || c in cityOptions)
      modifies this
      ensures Valid()
      ensures villeFilter == c && filteredData == FilterRows(data, c, dateMatch)
      ensures data == old(data) && cityOptions == old(cityOptions)
      ensures dateMatch == old(dateMatch) && errorShown == old(errorShown)
    {
      villeFilter := c;
      ApplyFilters();
    }

    /** A change of a date input, then `applyFilters`. */
    method SelectDates(m: Row -> bool)
      requires Valid()
      modifies this
      ensures Valid()
      ensures dateMatch == m && filteredData == FilterRows(data, villeFilter, m)
      ensures data == old(data) && cityOptions == old(cityOptions) && villeFilter == old(villeFilter)
      ensures errorShown == old(errorShown)
    {
      dateMatch := m;
      ApplyFilters();
    }

    /** `resetFilters`: clear the three inputs and show every row. */
    method ResetFilters()
      requires Valid()
      modifies this
      ensures Valid()
      ensures villeFilter == "" && dateMatch == AnyDate() && filteredData == data
      ensures data == old(data) && cityOptions == old(cityOptions) && errorShown == old(errorShown)
    {
      villeFilter := "";
      dateMatch := AnyDate();
      filteredData := data;
      SubsequenceReflexive(data);
    }
  }

  /** After a reset, applying the filters changes nothing: the cleared inputs keep every row. */
  lemma ResetThenFilterKeepsAll(rows: seq<Row>)
    ensures FilterRows(rows, "", AnyDate()) == rows
  {
    FilterWithoutCriteriaKeepsAll(rows, AnyDate());
  }
}
