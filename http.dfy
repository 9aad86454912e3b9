/**
 * The part of Go's `http.ResponseWriter` the handler uses: `Header().Set`,
 * `WriteHeader` and `Write`. Headers set after the status line has been written
 * are not sent, so the order of the three calls decides what the client sees.
 */
module Http {
  import opened Wrappers

  type byte = x: int | 0 <= x < 256

  const StatusOK := 200
  const StatusNotFound := 404
  const ContentTypeHeader := "Content-Type"

  class ResponseWriter {
    /** The header map `Header()` hands out; callers may change it until the status is written. */
    var header: map<string, string>
    /** The status code written so far, if any. */
    var status: Option<int>
    /** The headers as they stood when the status was written: what the client receives. */
    var sentHeader: map<string, string>
    /** The body bytes written so far. */
    var body: seq<byte>

    /** Nothing reaches the client before its status line. */
    ghost predicate Valid()
      reads this
    {
      status.None? ==> body == [] && sentHeader == map[]
    }

    /** A writer as the server hands it to a handler: nothing written yet. */
    constructor ()
      ensures Valid()
      ensures header == map[] && status == None && sentHeader == map[] && body == []
    {
      header := map[];
      status := None;
      sentHeader := map[];
      body := [];
    }

    /** `Header().Set(key, value)`. */
    method SetHeader(key: string, value: string)
      requires Valid()
      modifies this
      ensures Valid()
      ensures header == old(header)[key := value]
      ensures status == old(status) && sentHeader == old(sentHeader) && body == old(body)
    {
      header := header[key := value];
    }

    /**
     * `WriteHeader(code)` for a final status that allows a body: the first call
     * sends the status line and the headers; later calls are ignored.
     */
    method WriteHeader(code: int)
      requires Valid()
      requires 200 <= code <= 999 && code != 204 && code != 304
      modifies this
      ensures Valid()
      ensures old(status).None? ==> status == Some(code) && sentHeader == header
      ensures old(status).Some? ==> status == old(status) && sentHeader == old(sentHeader)
      ensures header == old(header) && body == old(body)
    {
      if status.None? {
        status := Some(code);
        sentHeader := header;
      }
    }

    /** `Write(data)`: sends status 200 first when no status has been written yet, then appends the bytes. */
    method Write(data: seq<byte>)
      requires Valid()
      modifies this
      ensures Valid()
      ensures old(status).None? ==> status == Some(StatusOK) && sentHeader == header
      ensures old(status).Some? ==> status == old(status) && sentHeader == old(sentHeader)
      ensures header == old(header) && body == old(body) + data
    {
      WriteHeader(StatusOK);
      body := body + data;
    }
  }
}
