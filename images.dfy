/** The data the distribution protocol moves around: image records, layer
    archives, and the shape of the HTTP exchanges with the registry. */
module ImageModel {
  import opened Wrappers

  /** A byte of a layer archive. */
  newtype byte = x: int | 0 <= x < 256

  /** An image identifier: an opaque string chosen by the graph or by the registry. */
  type Id = string

  /** A layer archive (compressed tar), treated as opaque bytes. */
  type Layer = seq<byte>

  /** An image record as decoded from its JSON metadata. `created` stands for
      the creation timestamp; its encoding is irrelevant to the protocol. */
  datatype Image = Image(
    id: Id,
    parent: Id,
    created: int,
    parentCommand: string,
    comment: string)

  datatype Verb = GET | PUT

  /** What a request carries: nothing, the raw bytes of an image's json
      file, or a layer archive. */
  datatype Payload = NoBody | JsonBody(json: seq<byte>) | LayerBody(data: Layer)

  /** An HTTP request as the client builds it. `contentLength` is the
      declared length; `transferEncoding` is the request's TransferEncoding list. */
  datatype Request = Request(
    verb: Verb,
    url: string,
    payload: Payload,
    contentLength: nat,
    transferEncoding: seq<string>)

  /** A response: its status code and its Location header, if one is present
      and parses as a URL. */
  datatype Response = Response(status: int, location: Option<string>)

  /** What `client.Do` returns. Go returns `(res, err)`; when `err` is nil the
      response is present, and when `err` is set a response may still be
      present (a failed redirect check). */
  datatype Reply = Answered(response: Response) | Errored(partial: Option<Response>)

  /** The response object of a reply, nil or not. */
  function ResponseOf(reply: Reply): Option<Response>
  {
    match reply
    case Answered(res) => Some(res)
    case Errored(res) => res
  }

  /** What `http.Get` followed by a read of the body yields: no response at
      all, or a body that was read completely or not. */
  datatype Fetched<T> = Unreachable(reason: string) | Delivered(body: T, readComplete: bool)
}
