/**
  The slice of net/http the handlers use: requests as already-parsed values, a
  response recorder (the writer the serverless entry point hands to the router),
  http.Error and http.NotFound.
 */
module Http {
  import opened Wrappers
  import opened Models

  const MethodGet: string := "GET"
  const MethodPost: string := "POST"
  const MethodPut: string := "PUT"
  const MethodDelete: string := "DELETE"

  const StatusOK: int := 200
  const StatusCreated: int := 201
  const StatusBadRequest: int := 400
  const StatusNotFound: int := 404
  const StatusMethodNotAllowed: int := 405
  const StatusInternalServerError: int := 500

  const ContentTypeHeader: string := "Content-Type"
  const ContentLengthHeader: string := "Content-Length"
  const NoSniffHeader: string := "X-Content-Type-Options"
  const TextContentType: string := "text/plain; charset=utf-8"
  const JsonContentType: string := "application/json"

  /** The text http.NotFound writes. */
  const NotFoundText: string := "404 page not found"

  /** A parsed query string: each key with its values in order (url.Values). */
  type Query = map<string, seq<string>>

  /** url.Values.Get: the first value of `key`, or "" when there is none. */
  function QueryGet(q: Query, key: string): string {
    if key in q && |q[key]| > 0 then q[key][0] else ""
  }

  /** The outcome of json.Decoder.Decode into one request struct. */
  datatype Decoded<T> = InvalidJson | Decoded(value: T)

  /**
    A request body, given by what decoding it into each of the handlers' request
    structs yields (every handler decodes into its own struct).
   */
  datatype Body = Body(
    account: Decoded<AccountRequest>,
    transaction: Decoded<TransactionRequest>,
    patch: Decoded<TransactionPatch>)

  datatype Request = Request(httpMethod: string, path: string, query: Query, body: Body)

  /** What a handler writes as the response body. JSON values are kept as values. */
  datatype Payload =
    | Text(text: string)
    | AccountJson(account: Account)
    | TransactionJson(transaction: Transaction)
    | AccountPage(accounts: seq<Account>, total: int, page: int, pageSize: int)
    | TransactionPage(transactions: seq<Transaction>, total: int, page: int, pageSize: int)
    | Message(message: string)

  /**
    The three shapes of response the handlers produce: an http.Error text, a
    utils.WriteJSON value, or a status followed by raw text.
   */
  datatype Response =
    | Failure(status: int, message: string)
    | Json(status: int, payload: Payload)
    | Plain(status: int, text: string)

  /** httptest.ResponseRecorder: header map, status code and body written so far. */
  class ResponseRecorder {
    var header: map<string, string>
    var code: int
    var wroteHeader: bool
    var body: seq<Payload>

    /** httptest.NewRecorder: no header, status 200, nothing written. */
    constructor ()
      ensures Unwritten()
    {
      header := map[];
      code := StatusOK;
      wroteHeader := false;
      body := [];
    }

    predicate Unwritten()
      reads this
    {
      header == map[] && code == StatusOK && !wroteHeader && body == []
    }

    /** The recorder holds exactly `r`, written into a fresh recorder. */
    predicate Shows(r: Response)
      reads this
    {
      wroteHeader && code == r.status &&
      match r
      case Failure(_, message) =>
        header == map[ContentTypeHeader := TextContentType, NoSniffHeader := "nosniff"] &&
        body == [Text(message + "\n")]
      case Json(_, payload) =>
        header == map[ContentTypeHeader := JsonContentType] && body == [payload]
      case Plain(_, text) =>
        header == map[] && body == [Text(text)]
    }

    /** Header().Set */
    method SetHeader(key: string, value: string)
      modifies this
      ensures header == old(header)[key := value]
      ensures code == old(code) && wroteHeader == old(wroteHeader) && body == old(body)
    {
      header := header[key := value];
    }

    /** Header().Del */
    method DeleteHeader(key: string)
      modifies this
      ensures header == old(header) - {key}
      ensures code == old(code) && wroteHeader == old(wroteHeader) && body == old(body)
    {
      header := header - {key};
    }

    /** WriteHeader: only the first call sets the status. */
    method WriteHeader(status: int)
      modifies this
      ensures code == if old(wroteHeader) then old(code) else status
      ensures wroteHeader
      ensures header == old(header) && body == old(body)
    {
      if !wroteHeader {
        code := status;
        wroteHeader := true;
      }
    }

    /** Write: a write before any WriteHeader sends status 200 first. */
    method Write(p: Payload)
      modifies this
      ensures code == if old(wroteHeader) then old(code) else StatusOK
      ensures wroteHeader
      ensures header == old(header) && body == old(body) + [p]
    {
      if !wroteHeader {
        WriteHeader(StatusOK);
      }
      body := body + [p];
    }
  }

  /**
    http.Error: drops Content-Length, marks the body as plain text that must not be
    sniffed, sends the status and writes the message and a newline.
   */
  method Error(w: ResponseRecorder, message: string, status: int)
    modifies w
    ensures w.header ==
      (old(w.header) - {ContentLengthHeader})[ContentTypeHeader := TextContentType][NoSniffHeader := "nosniff"]
    ensures w.code == if old(w.wroteHeader) then old(w.code) else status
    ensures w.wroteHeader && w.body == old(w.body) + [Text(message + "\n")]
    ensures old(w.Unwritten()) ==> w.Shows(Failure(status, message))
  {
    w.DeleteHeader(ContentLengthHeader);
    w.SetHeader(ContentTypeHeader, TextContentType);
    w.SetHeader(NoSniffHeader, "nosniff");
    w.WriteHeader(status);
    w.Write(Text(message + "\n"));
  }

  /** http.NotFound */
  method NotFound(w: ResponseRecorder)
    modifies w
    ensures old(w.Unwritten()) ==> w.Shows(Failure(StatusNotFound, NotFoundText))
  {
    Error(w, NotFoundText, StatusNotFound);
  }
}
