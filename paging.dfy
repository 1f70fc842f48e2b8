/** The data service's paginated list call, as a script of responses.

    Both the server's refresh and the dashboard's direct fetch page through the
    table with an opaque `offset` token. The network is not modelled; instead a
    script gives, in order, the response each successive page request receives. */
module Paging {
  import opened Json

  /** The response to one page request. */
  datatype Page =
    | Page(records: seq<Record>, offset: Option<string>)  // ok response with a JSON body
    | PageRejected(status: int, body: string)             // a response whose ok flag is false
    | PageFailed(reason: string)                          // the request, or reading its body, threw

  /** `while (offset)`: a token counts only when present and non-empty. */
  predicate HasToken(offset: Option<string>)
  {
    offset.Some? && offset.value != ""
  }

  /** A response after which the loop asks for another page. */
  predicate Continues(p: Page)
  {
    p.Page? && HasToken(p.offset)
  }

  /** The script holds a response that stops the paging loop. Without one the
      source's loop would request pages for ever. */
  predicate Ends(pages: seq<Page>)
  {
    exists i :: 0 <= i < |pages| && !Continues(pages[i])
  }

  lemma EndsTail(pages: seq<Page>)
    requires Ends(pages) && Continues(pages[0])
    ensures Ends(pages[1..])
  {
    var i :| 0 <= i < |pages| && !Continues(pages[i]);
    assert pages[1..][i - 1] == pages[i];
  }

  /** Index of the response that stops the loop: the first one that does not continue. */
  function StopIndex(pages: seq<Page>): (k: nat)
    requires Ends(pages)
    ensures k < |pages| && !Continues(pages[k])
    ensures forall j :: 0 <= j < k ==> Continues(pages[j])
    decreases |pages|
  {
    if !Continues(pages[0]) then 0
    else
      EndsTail(pages);
      var k := StopIndex(pages[1..]);
      assert forall j :: 1 <= j < k + 1 ==> pages[j] == pages[1..][j - 1];
      1 + k
  }

  /** The responses the loop reads: every page up to and including the one that stops it. */
  function Consumed(pages: seq<Page>): (c: seq<Page>)
    requires Ends(pages)
    ensures 0 < |c| <= |pages| && c == pages[..|c|]
    ensures !Continues(c[|c| - 1])
    ensures forall j :: 0 <= j < |c| - 1 ==> Continues(c[j])
  {
    pages[..StopIndex(pages) + 1]
  }

  /** The records a response carries; a failed response carries none. */
  function RecordsOf(p: Page): seq<Record>
  {
    if p.Page? then p.records else []
  }

  /** The records of a sequence of responses, concatenated in order. */
  function Flatten(pages: seq<Page>): seq<Record>
  {
    if pages == [] then [] else RecordsOf(pages[0]) + Flatten(pages[1..])
  }

  /** Reading a continuing first page consumes it and then what the rest consumes. */
  lemma ConsumedCons(pages: seq<Page>)
    requires Ends(pages) && Continues(pages[0])
    ensures Ends(pages[1..])
    ensures Consumed(pages) == [pages[0]] + Consumed(pages[1..])
  {
    EndsTail(pages);
    var k := StopIndex(pages[1..]);
    assert StopIndex(pages) == 1 + k;
    assert pages[..k + 2] == [pages[0]] + pages[1..][..k + 1];
  }

  /** A first page that stops the loop is all the loop reads. */
  lemma ConsumedStop(pages: seq<Page>)
    requires |pages| > 0 && !Continues(pages[0])
    ensures Ends(pages) && Consumed(pages) == [pages[0]]
  {
    assert !Continues(pages[0]);
  }
}
