/**
 * The Harbor API client (collector/harbor.go): options, the `request` and `Ping` status
 * rules, and the decoding step every scraper applies to a response body.
 *
 * HTTP and JSON are not modelled: one GET yields a `Reply`, whose body is either
 * unreadable, not decodable into the Go type the caller asks for, or that decoded value.
 */
module Harbor {
  import opened Wrappers

  /** `HarborOpts` without the timeout (timing is not modelled). */
  datatype HarborOpts = HarborOpts(url: string, username: string, password: string, ua: string, insecure: bool)

  datatype HarborClient = HarborClient(opts: HarborOpts)

  /** `idJson`, shared by the replication, labels and GC scrapers. */
  datatype IdJson = IdJson(id: int)

  /** The body of a response, as far as the caller's `json.Unmarshal` is concerned. */
  datatype Body<T> = Unreadable | Malformed | Decoded(value: T)

  /** What one GET yields: no response at all (request construction or transport
      failed), or a status code and a body. */
  datatype Reply<T> = NoReply | Reply(status: int, body: Body<T>)

  /** Why a request or a scraper step failed. `NoData` stands for every check on a
      decoded payload (the source wraps `resultErr` or formats its own message). */
  datatype Failure =
    | Transport
    | BadStatus(code: int)
    | ReadFailed
    | DecodeFailed
    | NoData(url: string)
    | Unauthorized

  const StatusOK := 200
  const PingEndpoint := "/configurations"

  /** The URL `request` and `Ping` target: the configured address as given, followed
      directly by the endpoint. */
  function RequestUrl(client: HarborClient, endpoint: string): string
  {
    client.opts.url + endpoint
  }

  /** `request`: the body is returned only for status 200; any other status, 2xx or
      not, is an error, and so is a body that cannot be read. */
  function Request<T>(reply: Reply<T>): (r: Result<Body<T>, Failure>)
    ensures r.Ok? <==> reply.Reply? && reply.status == StatusOK && !reply.body.Unreadable?
    ensures r.Ok? ==> r.value == reply.body
    ensures reply.NoReply? ==> r == Err(Transport)
    ensures reply.Reply? && reply.status != StatusOK ==> r == Err(BadStatus(reply.status))
  {
    match reply
    case NoReply => Err(Transport)
    case Reply(status, body) =>
      if status != StatusOK then Err(BadStatus(status))
      else if body.Unreadable? then Err(ReadFailed)
      else Ok(body)
  }

  /** `request` followed by `json.Unmarshal` into the caller's type. */
  function Fetch<T>(reply: Reply<T>): (r: Result<T, Failure>)
    ensures r.Ok? <==> reply.Reply? && reply.status == StatusOK && reply.body.Decoded?
    ensures r.Ok? ==> r.value == reply.body.value
    ensures Request(reply).Err? ==> r == Err(Request(reply).error)
    ensures Request(reply).Ok? && reply.body.Malformed? ==> r == Err(DecodeFailed)
  {
    match Request(reply)
    case Err(e) => Err(e)
    case Ok(body) =>
      match body
      case Decoded(v) => Ok(v)
      case _ => Err(DecodeFailed)
  }

  datatype PingResult = PingResult(pong: bool, err: Option<Failure>)

  /** `Ping`: GET `/configurations`; (true, nil) exactly when the status is 200, and
      otherwise false with an error. The body is never read. */
  function Ping(reply: Reply<()>): (r: PingResult)
    ensures r.pong <==> reply.Reply? && reply.status == StatusOK
    ensures r.pong <==> r.err.None?
  {
    match reply
    case NoReply => PingResult(false, Some(Transport))
    case Reply(status, _) =>
      if status == StatusOK then PingResult(true, None)
      else PingResult(false, Some(Unauthorized))
  }
}
