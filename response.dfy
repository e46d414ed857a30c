/** utils/response.go: pagination query parameters, JSON responses and date parsing. */
module Utils {
  import opened Wrappers
  import opened Models
  import opened Numbers
  import opened Http

  const DefaultPageSize: int := 20
  const MaxPageSize: int := 100

  datatype Pagination = Pagination(page: int, pageSize: int)

  /** The query parameter `key`, when it is present and strconv.Atoi reads it as an integer of at least 1. */
  function PositiveParam(q: Query, key: string): (r: Option<int>)
    ensures r.Some? ==> r.value >= 1
    ensures QueryGet(q, key) == "" ==> r.None?
  {
    var text := QueryGet(q, key);
    if text == "" then None
    else
      match Atoi(text)
      case Some(v) => if v >= 1 then Some(v) else None
      case None => None
  }

  /**
    ParsePagination: `page` and `pageSize` from the query, 1 and 20 when missing or
    not a positive integer, the page size capped at 100.
   */
  function ParsePagination(q: Query): (p: Pagination)
    ensures p.page >= 1 && 1 <= p.pageSize <= MaxPageSize
  {
    var page := PositiveParam(q, "page").GetOr(1);
    var pageSize := PositiveParam(q, "pageSize").GetOr(DefaultPageSize);
    Pagination(page, if pageSize > MaxPageSize then MaxPageSize else pageSize)
  }

  /** Without either parameter, the first page of 20. */
  lemma PaginationDefaults(q: Query)
    requires QueryGet(q, "page") == "" && QueryGet(q, "pageSize") == ""
    ensures ParsePagination(q) == Pagination(1, DefaultPageSize)
  {
  }

  /** The page is the parameter's value when that is a positive integer, and 1 otherwise. */
  lemma PageParameter(q: Query)
    ensures ParsePagination(q).page ==
      (match Atoi(QueryGet(q, "page")) case Some(v) => if v >= 1 then v else 1 case None => 1)
  {
  }

  /** The page size is min(v, 100) for a positive integer v, and 20 otherwise. */
  lemma PageSizeParameter(q: Query)
    ensures ParsePagination(q).pageSize ==
      (match Atoi(QueryGet(q, "pageSize"))
       case Some(v) => if v < 1 then DefaultPageSize else if v > MaxPageSize then MaxPageSize else v
       case None => DefaultPageSize)
  {
  }

  /** Any decimal page number of an int64 is taken as it is, and any decimal page size up to 100. */
  lemma PaginationFromDecimal(q: Query, page: nat, pageSize: nat)
    requires 1 <= page <= Int64Max && 1 <= pageSize <= MaxPageSize
    requires "page" in q && q["page"] == [DecimalText(page)]
    requires "pageSize" in q && q["pageSize"] == [DecimalText(pageSize)]
    ensures ParsePagination(q) == Pagination(page, pageSize)
  {
    AtoiDecimal(page);
    AtoiDecimal(pageSize);
  }

  /** The two parameters are read independently: changing one never changes the other result. */
  lemma PaginationIndependent(q: Query, key: string, values: seq<string>)
    ensures key != "page" ==> ParsePagination(q[key := values]).page == ParsePagination(q).page
    ensures key != "pageSize" ==> ParsePagination(q[key := values]).pageSize == ParsePagination(q).pageSize
  {
    assert key != "page" ==> QueryGet(q[key := values], "page") == QueryGet(q, "page");
    assert key != "pageSize" ==> QueryGet(q[key := values], "pageSize") == QueryGet(q, "pageSize");
  }

  /** WriteJSON: content type application/json, then the status, then the encoded value. */
  method WriteJSON(w: ResponseRecorder, status: int, data: Payload)
    modifies w
    ensures w.header == old(w.header)[ContentTypeHeader := JsonContentType]
    ensures w.code == if old(w.wroteHeader) then old(w.code) else status
    ensures w.wroteHeader && w.body == old(w.body) + [data]
    ensures old(w.Unwritten()) ==> w.Shows(Json(status, data))
  {
    w.SetHeader(ContentTypeHeader, JsonContentType);
    w.WriteHeader(status);
    w.Write(data);
  }

  /** ParseDate: time.Parse with the RFC 3339 layout, a library call given as a partial function. */
  type DateParser = string -> Option<Instant>
}
