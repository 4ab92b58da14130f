/** The part of net/http the handlers rely on: a response writer that records
    the header map, the status code, the body and whether the handler panicked,
    and `http.Error`. */
module Http {

  const StatusOK: int := 200
  const StatusBadRequest: int := 400
  const StatusInternalServerError: int := 500

  const MethodGet: string := "GET"
  const MethodPost: string := "POST"

  /** What a response writer holds. `code` is the status that will be sent;
      until `wroteHeader` is set the server sends 200. `aborted` records that
      the handler panicked, in which case the server drops the connection. */
  datatype WriterState = WriterState(
    header: map<string, string>,
    code: int,
    wroteHeader: bool,
    body: string,
    aborted: bool)
  {
    function SetHeader(key: string, value: string): WriterState {
      this.(header := header[key := value])
    }

    function DelHeader(key: string): WriterState {
      this.(header := header - {key})
    }

    /** Only the first WriteHeader takes effect; later ones are superfluous. */
    function WriteHeader(statusCode: int): WriterState {
      if wroteHeader then this else this.(code := statusCode, wroteHeader := true)
    }

    /** Writing the body first commits the header with 200 when none was written. */
    function Write(data: string): WriterState {
      var committed := WriteHeader(StatusOK);
      committed.(body := committed.body + data)
    }

    /** The effect of `http.Error(w, error, code)`: the body gains the message
        and a newline, the status is `statusCode` unless one was already
        written, the content is declared plain text that must not be sniffed,
        any Content-Length is dropped, and every other header stays. */
    function WithError(error: string, statusCode: int): (r: WriterState)
      ensures r.body == body + error + "\n"
      ensures r.wroteHeader && r.code == (if wroteHeader then code else statusCode)
      ensures "Content-Length" !in r.header
      ensures "Content-Type" in r.header && r.header["Content-Type"] == "text/plain; charset=utf-8"
      ensures "X-Content-Type-Options" in r.header && r.header["X-Content-Type-Options"] == "nosniff"
      ensures forall k | k != "Content-Length" && k != "Content-Type" && k != "X-Content-Type-Options" ::
        (k in r.header <==> k in header) && (k in header ==> r.header[k] == header[k])
      ensures r.aborted == aborted
    {
      DelHeader("Content-Length")
        .SetHeader("Content-Type", "text/plain; charset=utf-8")
        .SetHeader("X-Content-Type-Options", "nosniff")
        .WriteHeader(statusCode)
        .Write(error + "\n")
    }

    function Abort(): WriterState {
      this.(aborted := true)
    }
  }

  /** The writer the server hands to a handler for each request. */
  const Fresh: WriterState := WriterState(map[], StatusOK, false, "", false)

  class ResponseWriter {
    var header: map<string, string>
    var code: int
    var wroteHeader: bool
    var body: string
    var aborted: bool

    function State(): WriterState
      reads this
    {
      WriterState(header, code, wroteHeader, body, aborted)
    }

    constructor ()
      ensures State() == Fresh
    {
      header, code, wroteHeader, body, aborted := map[], StatusOK, false, "", false;
    }

    method SetHeader(key: string, value: string)
      modifies this
      ensures State() == old(State()).SetHeader(key, value)
    {
      header := header[key := value];
    }

    method DelHeader(key: string)
      modifies this
      ensures State() == old(State()).DelHeader(key)
    {
      header := header - {key};
    }

    method WriteHeader(statusCode: int)
      modifies this
      ensures State() == old(State()).WriteHeader(statusCode)
    {
      if !wroteHeader {
        code, wroteHeader := statusCode, true;
      }
    }

    method Write(data: string)
      modifies this
      ensures State() == old(State()).Write(data)
    {
      WriteHeader(StatusOK);
      body := body + data;
    }

    /** Stands for a panic escaping the handler. */
    method Abort()
      modifies this
      ensures State() == old(State()).Abort()
    {
      aborted := true;
    }
  }

  /** `http.Error`: plain-text content type, no sniffing, the status code, and
      the message followed by a newline as the body. */
  method Error(w: ResponseWriter, error: string, code: int)
    modifies w
    ensures w.State() == old(w.State()).WithError(error, code)
  {
    w.DelHeader("Content-Length");
    w.SetHeader("Content-Type", "text/plain; charset=utf-8");
    w.SetHeader("X-Content-Type-Options", "nosniff");
    w.WriteHeader(code);
    w.Write(error + "\n");
  }
}
