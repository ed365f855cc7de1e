/**
 * The paging rules both server flavours share: where a listing may start
 * once its total is known, and the headers a successful listing carries.
 */
module Paging {
  import opened JavaString
  import opened Json
  import opened Services
  import opened Http

  /** An offset is acceptable when it is 0 or names an existing position. */
  predicate OffsetWithinTotal(offset: int, total: int)
  {
    offset == 0 || offset < total
  }

  function OffsetBeyondTotalMessage(total: int): string
  {
    "Parameter 'offset' must be smaller than the total count of objects, which is " + IntText(total) + "!"
  }

  /** The headers of a successful listing: always the total, a Link only when there is one. */
  function ListingHeaders(total: int, linkHeader: string): (h: map<string, string>)
    ensures HEADER_TOTAL_COUNT in h && h[HEADER_TOTAL_COUNT] == IntText(total)
    ensures HEADER_LINK in h <==> linkHeader != ""
    ensures HEADER_LINK in h ==> h[HEADER_LINK] == linkHeader
    ensures h.Keys <= {HEADER_TOTAL_COUNT, HEADER_LINK}
  {
    var h := map[HEADER_TOTAL_COUNT := IntText(total)];
    if linkHeader != "" then h[HEADER_LINK := linkHeader] else h
  }

  /**
   * For a page request that passed the first paging checks, the check against
   * the total accepts exactly the offsets whose page holds a document, and
   * offset 0, which is accepted even when the store is empty.
   */
  lemma OffsetCheckMatchesPage(docs: seq<Doc>, limit: int, offset: int)
    requires 0 <= offset && 0 < limit
    ensures OffsetWithinTotal(offset, |docs|) <==> offset == 0 || |Page(docs, limit, offset)| > 0
  {
  }
}
